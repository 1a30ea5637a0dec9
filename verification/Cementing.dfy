/** `BlockCementer::confirm`: a depth-first walk over the dependencies of a block, with a stack that forgets its bottom,
    that cements every block once its dependencies are cemented. */
module Cementing {
  import opened Wrappers
  import opened KeySpace
  import opened LedgerState

  /** Other writers.  `step(k, s)` is what they leave in the tables when the write transaction is offered to them for the
      k-th time in state `s`; `None` means that the transaction was not refreshed. */
  datatype Env = Env(step: (nat, State) -> Option<Tables>)

  lemma WFAcyclic(u: Universe, s: State)
    requires WF(u, s)
    ensures Acyclic(u)
  {}

  lemma AcyclicAt(u: Universe, h: Hash)
    requires Acyclic(u)
    ensures ContentOk(u, h)
  {}

  lemma WFNonzero(u: Universe, s: State)
    requires WF(u, s)
    ensures ZERO !in s.blocks
  {}

  ghost predicate EnvOk(u: Universe, env: Env) {
    forall k: nat, s: State :: WF(u, s) && env.step(k, s).Some? ==> Interferes(u, s, env.step(k, s).value)
  }

  /** From the `quiet`-th chance on, other writers no longer take `root` out of the block table. */
  ghost predicate Stays(env: Env, quiet: nat, root: Hash) {
    forall k: nat, s: State | k >= quiet && env.step(k, s).Some? && root in s.blocks :: root in env.step(k, s).value.blocks
  }

  /** From the `quiet`-th chance on, other writers no longer put `root` back into the block table. */
  ghost predicate NoReturn(env: Env, quiet: nat, root: Hash) {
    forall k: nat, s: State | k >= quiet && env.step(k, s).Some? && root !in s.blocks :: root !in env.step(k, s).value.blocks
  }

  /** `root` is not taken out and put back for ever.  What happens to all other blocks does not matter. */
  ghost predicate Settles(env: Env, quiet: nat, root: Hash) {
    Stays(env, quiet, root) || NoReturn(env, quiet, root)
  }

  // ----- cementing traces ----------------------------------------------------------------------------------------

  ghost predicate DepBefore(s0: State, done: seq<Hash>, d: Hash) {
    d == ZERO || Confirmed(s0, d) || d in done
  }

  /** `hs` lists exactly the blocks confirmed on the way from `s0` to `s`, each once, dependencies before dependents. */
  ghost predicate Trace(u: Universe, s0: State, hs: seq<Hash>, s: State) {
    && s0.pruned <= s.pruned
    && (forall i | 0 <= i < |hs| :: !Confirmed(s0, hs[i]))
    && (forall i, j | 0 <= i < j < |hs| :: hs[i] != hs[j])
    && (forall i | 0 <= i < |hs| ::
          DepBefore(s0, hs[..i], u.content(hs[i]).dep0) && DepBefore(s0, hs[..i], u.content(hs[i]).dep1))
    && (forall h :: Confirmed(s, h) <==> Confirmed(s0, h) || h in hs)
  }

  lemma TraceCement(u: Universe, s0: State, hs: seq<Hash>, s: State, h: Hash)
    requires Trace(u, s0, hs, s)
    requires WF(u, s) && h in s.blocks && !Confirmed(s, h) && DepsConfirmed(s, s.blocks[h])
    ensures Trace(u, s0, hs + [h], Cement(s, s.blocks[h]))
  {
    CementConfirms(u, s, h);
    var hs' := hs + [h];
    assert s.blocks[h] == u.content(h);
    forall i | 0 <= i < |hs'|
      ensures DepBefore(s0, hs'[..i], u.content(hs'[i]).dep0) && DepBefore(s0, hs'[..i], u.content(hs'[i]).dep1)
    {
      if i < |hs| {
        assert hs'[..i] == hs[..i];
      } else {
        assert hs'[..i] == hs;
      }
    }
    assert forall x :: x in hs' <==> x in hs || x == h;
  }

  lemma TraceRefl(u: Universe, s: State)
    ensures Trace(u, s, [], s)
  {
  }

  lemma TraceConcat(u: Universe, s0: State, a: seq<Hash>, s1: State, b: seq<Hash>, s2: State)
    requires Trace(u, s0, a, s1) && Trace(u, s1, b, s2)
    ensures Trace(u, s0, a + b, s2)
  {
    var c := a + b;
    forall i | 0 <= i < |c|
      ensures DepBefore(s0, c[..i], u.content(c[i]).dep0) && DepBefore(s0, c[..i], u.content(c[i]).dep1)
    {
      if i < |a| {
        assert c[..i] == a[..i];
      } else {
        assert c[..i] == a + b[..i - |a|];
        assert c[i] == b[i - |a|];
      }
    }
  }

  lemma TracePruned(u: Universe, s0: State, hs: seq<Hash>, s: State)
    requires Trace(u, s0, hs, s)
    ensures s0.pruned <= s.pruned
    ensures forall h | Confirmed(s0, h) :: Confirmed(s, h)
  {
  }

  lemma TraceDistinct(u: Universe, s0: State, hs: seq<Hash>, s: State)
    requires Trace(u, s0, hs, s)
    ensures forall i, j | 0 <= i < j < |hs| :: hs[i] != hs[j]
  {
  }

  lemma TraceInterference(u: Universe, s0: State, hs: seq<Hash>, s: State, t: Tables)
    requires Trace(u, s0, hs, s) && Interferes(u, s, t)
    ensures Trace(u, s0, hs, With(s, t))
  {
  }

  /** A trace through `a` is no longer than `a`, and exhausts it when it is as long. */
  lemma {:induction false} DistinctWithin(hs: seq<Hash>, a: set<Hash>)
    requires forall i, j | 0 <= i < j < |hs| :: hs[i] != hs[j]
    requires forall i | 0 <= i < |hs| :: hs[i] in a
    ensures |hs| <= |a|
    ensures |hs| == |a| ==> forall x | x in a :: x in hs
  {
    if hs != [] {
      var h := hs[|hs| - 1];
      DistinctWithin(hs[..|hs| - 1], a - {h});
      assert hs == hs[..|hs| - 1] + [h];
      if |hs| == |a| {
        forall x | x in a ensures x in hs {
          assert x == h || x in a - {h};
        }
      }
    }
  }

  // ----- the stack -----------------------------------------------------------------------------------------------

  /** Pushes one dependency if it is still unconfirmed, and forgets the bottom of a stack that has grown too large. */
  function Push(s: State, stack: seq<Hash>, d: Hash, max: nat): seq<Hash> {
    if d == ZERO || Confirmed(s, d) then stack
    else if |stack| + 1 > max then (stack + [d])[1..]
    else stack + [d]
  }

  function PushAll(s: State, stack: seq<Hash>, deps: seq<Hash>, max: nat): seq<Hash>
    decreases |deps|
  {
    if deps == [] then stack else PushAll(s, Push(s, stack, deps[0], max), deps[1..], max)
  }

  function Expand(s: State, stack: seq<Hash>, b: Block, max: nat): seq<Hash> {
    PushAll(s, stack, [b.dep0, b.dep1], max)
  }

  function Top(stack: seq<Hash>): Hash
    requires stack != []
  {
    stack[|stack| - 1]
  }

  function AtLeastOne(n: nat): nat {
    if n == 0 then 1 else n
  }

  lemma ExpandUnfold(s: State, stack: seq<Hash>, b: Block, max: nat)
    ensures Expand(s, stack, b, max) == Push(s, Push(s, stack, b.dep0, max), b.dep1, max)
  {
    var stack1 := Push(s, stack, b.dep0, max);
    assert [b.dep0, b.dep1][1..] == [b.dep1];
    assert PushAll(s, stack1, [b.dep1], max) == PushAll(s, Push(s, stack1, b.dep1, max), [], max) by {
      assert [b.dep1][1..] == [];
    }
  }

  /** The stack keeps its top exactly when every dependency is confirmed; otherwise an unconfirmed dependency is on top. */
  lemma ExpandTop(s: State, stack: seq<Hash>, b: Block, max: nat)
    requires stack != [] && |stack| <= AtLeastOne(max)
    ensures DepsConfirmed(s, b) ==> Expand(s, stack, b, max) == stack
    ensures !DepsConfirmed(s, b) ==>
              && Expand(s, stack, b, max) != []
              && var d := Top(Expand(s, stack, b, max)); d in {b.dep0, b.dep1} && d != ZERO && !Confirmed(s, d)
    ensures |Expand(s, stack, b, max)| <= AtLeastOne(max)
    ensures forall e | e in Expand(s, stack, b, max) ::
              e in stack || (e in {b.dep0, b.dep1} && e != ZERO && !Confirmed(s, e))
  {
    ExpandUnfold(s, stack, b, max);
  }

  // ----- why one call suffices when the bound is large ---------------------------------------------------------------

  function Count(marks: seq<bool>): nat {
    if marks == [] then 0 else Count(marks[..|marks| - 1]) + (if marks[|marks| - 1] then 1 else 0)
  }

  /** `d` lies on the stack above position `i`. */
  ghost predicate Above(stack: seq<Hash>, i: int, d: Hash) {
    exists j :: i < j < |stack| && 0 <= j && stack[j] == d
  }

  /** `marks` tells which stack entries have been expanded.  Expanded entries are unconfirmed, their ranks fall towards
      the top, their unconfirmed dependencies are above them, and at most two entries sit on each of them. */
  ghost predicate Expanded(u: Universe, s: State, stack: seq<Hash>, marks: seq<bool>, target: Hash) {
    && |marks| == |stack|
    && (forall i | 0 <= i < |stack| && marks[i] :: !Confirmed(s, stack[i]))
    && (forall i, j | 0 <= i < j < |stack| && marks[i] :: u.rank(stack[j]) < u.rank(stack[i]))
    && (forall i | 0 <= i < |stack| && marks[i] :: Covered(u, s, stack, i))
    && (forall i | 0 <= i <= |stack| :: i <= 2 * Count(marks[..i]) + 1)
    && (Confirmed(s, target) || (stack != [] && stack[0] == target))
  }

  /** The expanded entries are distinct, so there are fewer of them than candidates of which one is not expanded. */
  lemma {:induction false} CountBelow(u: Universe, stack: seq<Hash>, marks: seq<bool>, a: set<Hash>)
    requires |marks| == |stack|
    requires forall i, j | 0 <= i < j < |stack| && marks[i] :: u.rank(stack[j]) < u.rank(stack[i])
    requires forall i | 0 <= i < |stack| && marks[i] :: stack[i] in a
    ensures Count(marks) <= |a|
  {
    if stack != [] {
      var k := |stack| - 1;
      if marks[k] {
        CountBelow(u, stack[..k], marks[..k], a - {stack[k]});
      } else {
        CountBelow(u, stack[..k], marks[..k], a);
      }
    }
  }

  /** The unconfirmed dependencies of a block, in the order in which they are pushed. */
  ghost function Pending(s: State, b: Block): seq<Hash> {
    (if DepConfirmed(s, b.dep0) then [] else [b.dep0]) + (if DepConfirmed(s, b.dep1) then [] else [b.dep1])
  }

  lemma PendingBelow(u: Universe, s: State, h: Hash)
    requires Acyclic(u) && !DepsConfirmed(s, u.content(h))
    ensures 1 <= |Pending(s, u.content(h))| <= 2
    ensures forall e | e in Pending(s, u.content(h)) :: u.rank(e) < u.rank(h)
  {
    AcyclicAt(u, h);
  }

  /** With room for two entries per expanded one, expanding the top does not reach the limit. */
  lemma ExpandedFits(u: Universe, s: State, stack: seq<Hash>, marks: seq<bool>, target: Hash, a: set<Hash>, max: nat)
    requires Acyclic(u) && Expanded(u, s, stack, marks, target) && stack != []
    requires !DepsConfirmed(s, u.content(Top(stack)))
    requires forall e | e in stack || e in Pending(s, u.content(Top(stack))) :: e in a
    requires max + 1 >= 2 * |a|
    ensures !marks[|marks| - 1]
    ensures |stack| + 2 <= 2 * Count(marks[|marks| - 1 := true]) + 1 <= max
    ensures Expand(s, stack, u.content(Top(stack)), max) == stack + Pending(s, u.content(Top(stack)))
  {
    hide Confirmed, Acyclic;
    var k := |stack| - 1;
    var b := u.content(stack[k]);
    var d := Pending(s, b)[0];
    var m := marks[k := true];
    assert marks[..k + 1] == marks && m[..k] == marks[..k];
    AcyclicAt(u, stack[k]);
    CountBelow(u, stack, m, a - {d});
    ExpandUnfold(s, stack, b, max);
  }

  /** Expanding the top of the stack neither forgets the bottom nor breaks the structure. */
  lemma ExpandedPush(u: Universe, s: State, stack: seq<Hash>, marks: seq<bool>, target: Hash, a: set<Hash>, max: nat)
      returns (marks': seq<bool>)
    requires Acyclic(u) && Expanded(u, s, stack, marks, target) && stack != []
    requires !Confirmed(s, Top(stack)) && !DepsConfirmed(s, u.content(Top(stack)))
    requires forall e | e in stack || e in Pending(s, u.content(Top(stack))) :: e in a
    requires max + 1 >= 2 * |a|
    ensures Expanded(u, s, Expand(s, stack, u.content(Top(stack)), max), marks', target)
  {
    hide Count, Confirmed, DepsConfirmed, Expand, Acyclic, Covered, Pending;
    ExpandedFits(u, s, stack, marks, target, a, max);
    var k := |stack| - 1;
    var above := Pending(s, u.content(stack[k]));
    PendingBelow(u, s, stack[k]);
    marks' := marks[k := true] + (if |above| == 1 then [false] else [false, false]);
    DepsAbove(u, s, stack, marks, marks');
    RanksFall(u, stack, marks, above, marks');
    PushedPrefixes(marks, marks');
  }

  /** A stack entry whose unconfirmed dependencies are above it. */
  ghost predicate Covered(u: Universe, s: State, stack: seq<Hash>, i: nat)
    requires i < |stack|
  {
    && (!DepConfirmed(s, u.content(stack[i]).dep0) ==> Above(stack, i, u.content(stack[i]).dep0))
    && (!DepConfirmed(s, u.content(stack[i]).dep1) ==> Above(stack, i, u.content(stack[i]).dep1))
  }

  lemma DepsAbove(u: Universe, s: State, stack: seq<Hash>, marks: seq<bool>, marks': seq<bool>)
    requires |marks| == |stack| > 0
    requires forall i | 0 <= i < |stack| && marks[i] :: Covered(u, s, stack, i)
    requires forall i | 0 <= i < |marks'| && marks'[i] :: i < |stack| && (marks[i] || i == |stack| - 1)
    requires |marks'| == |stack| + |Pending(s, u.content(Top(stack)))|
    ensures forall i | 0 <= i < |marks'| && marks'[i] ::
              Covered(u, s, stack + Pending(s, u.content(Top(stack))), i)
  {
    var k := |stack| - 1;
    var above := Pending(s, u.content(stack[k]));
    AboveGrows(stack, above);
    assert !DepConfirmed(s, u.content(stack[k]).dep0) ==> above[0] == u.content(stack[k]).dep0;
    assert !DepConfirmed(s, u.content(stack[k]).dep1) ==> above[|above| - 1] == u.content(stack[k]).dep1;
    forall i | 0 <= i < |marks'| && marks'[i] ensures Covered(u, s, stack + above, i) {
      if i < k {
        assert Covered(u, s, stack, i);
      } else {
        assert forall d | d in above :: Above(stack + above, k, d);
        assert !DepConfirmed(s, u.content(stack[k]).dep0) ==> u.content(stack[k]).dep0 in above;
        assert !DepConfirmed(s, u.content(stack[k]).dep1) ==> u.content(stack[k]).dep1 in above;
      }
    }
  }

  lemma AboveGrows(stack: seq<Hash>, above: seq<Hash>)
    ensures forall i: nat, d | Above(stack, i, d) :: Above(stack + above, i, d)
    ensures forall d | d in above :: Above(stack + above, |stack| - 1, d)
  {
    forall i: nat, d | Above(stack, i, d) ensures Above(stack + above, i, d) {
      var j :| i < j < |stack| && 0 <= j && stack[j] == d;
      assert (stack + above)[j] == d;
    }
    forall d | d in above ensures Above(stack + above, |stack| - 1, d) {
      var j :| 0 <= j < |above| && above[j] == d;
      assert (stack + above)[|stack| + j] == d;
    }
  }

  lemma RanksFall(u: Universe, stack: seq<Hash>, marks: seq<bool>, above: seq<Hash>, marks': seq<bool>)
    requires |marks| == |stack| > 0 && |marks'| == |stack| + |above|
    requires forall i, j | 0 <= i < j < |stack| && marks[i] :: u.rank(stack[j]) < u.rank(stack[i])
    requires forall e | e in above :: u.rank(e) < u.rank(Top(stack))
    requires forall i | 0 <= i < |marks'| && marks'[i] :: i < |stack| && (marks[i] || i == |stack| - 1)
    ensures forall i, j | 0 <= i < j < |marks'| && marks'[i] ::
              u.rank((stack + above)[j]) < u.rank((stack + above)[i])
  {
  }

  lemma PushedPrefixes(marks: seq<bool>, marks': seq<bool>)
    requires marks != [] && marks[|marks| - 1 := true] <= marks'
    requires forall i | 0 <= i <= |marks| :: i <= 2 * Count(marks[..i]) + 1
    requires |marks'| <= 2 * Count(marks[|marks| - 1 := true]) + 1
    ensures forall i | 0 <= i <= |marks'| :: i <= 2 * Count(marks'[..i]) + 1
  {
    var k := |marks| - 1;
    forall i | 0 <= i <= |marks'| ensures i <= 2 * Count(marks'[..i]) + 1 {
      if i <= k {
        assert marks'[..i] == marks[..i];
      } else {
        assert marks'[..k + 1] == marks[k := true];
        CountPrefix(marks', k + 1, i);
      }
    }
  }

  lemma {:induction false} CountPrefix(marks: seq<bool>, i: nat, j: nat)
    requires i <= j <= |marks|
    ensures Count(marks[..i]) <= Count(marks[..j])
  {
    if i < j {
      assert marks[..j][..j - 1] == marks[..j - 1];
      CountPrefix(marks, i, j - 1);
    }
  }

  lemma ExpandedSame(u: Universe, s: State, s': State, stack: seq<Hash>, marks: seq<bool>, target: Hash)
    requires Expanded(u, s, stack, marks, target)
    requires forall x :: Confirmed(s', x) <==> Confirmed(s, x)
    ensures Expanded(u, s', stack, marks, target)
  {
    forall i | 0 <= i < |stack| && marks[i] ensures Covered(u, s', stack, i) {
      assert Covered(u, s, stack, i);
    }
  }

  /** Popping the top after it has been confirmed keeps the structure. */
  lemma ExpandedPop(u: Universe, s: State, s': State, stack: seq<Hash>, marks: seq<bool>, target: Hash)
    requires Expanded(u, s, stack, marks, target) && stack != []
    requires forall x :: Confirmed(s', x) <==> Confirmed(s, x) || x == Top(stack)
    ensures Expanded(u, s', stack[..|stack| - 1], marks[..|marks| - 1], target)
  {
    var k := |stack| - 1;
    var stack', marks' := stack[..k], marks[..k];
    forall i, d | 0 <= i < k && Above(stack, i, d) && d != stack[k] ensures Above(stack', i, d) {
      var j :| i < j < |stack| && 0 <= j && stack[j] == d;
      assert stack'[j] == d;
    }
    forall i | 0 <= i < k && marks'[i] ensures Covered(u, s', stack', i) {
      assert Covered(u, s, stack, i);
    }
    forall i | 0 <= i <= k ensures i <= 2 * Count(marks'[..i]) + 1 {
      assert marks'[..i] == marks[..i];
    }
  }

  /** Pushing the unconfirmed dependencies, and forgetting the bottom of what got too large. */
  lemma ExpandSuffix(s: State, stack: seq<Hash>, b: Block, max: nat) returns (n: nat)
    ensures n <= |stack + Pending(s, b)|
    ensures Expand(s, stack, b, max) == (stack + Pending(s, b))[n..]
  {
    ExpandUnfold(s, stack, b, max);
    var all, result := stack + Pending(s, b), Expand(s, stack, b, max);
    n := |all| - |result|;
    assert result == all[n..];
  }

  // ----- why every entry stays stored --------------------------------------------------------------------------------

  /** The entry at `i` is the block below an unconfirmed `p`, and everything from there on is of lower rank than `p`. */
  ghost predicate Awaits(u: Universe, s: State, stack: seq<Hash>, a: set<Hash>, i: nat, p: Hash)
    requires i < |stack|
  {
    && p in a && !Confirmed(s, p) && u.content(p).previous == stack[i]
    && forall j | i <= j < |stack| :: u.rank(stack[j]) < u.rank(p)
  }

  ghost predicate Dominates(u: Universe, stack: seq<Hash>, i: nat)
    requires i < |stack|
  {
    forall j | i < j < |stack| :: u.rank(stack[j]) < u.rank(stack[i])
  }

  /** Every entry is unconfirmed and above it there are only entries of lower rank, or it is the block below an unconfirmed
      one.  The second case is a dependency that was pushed together with another one and confirmed on the way: as the
      previous block is pushed first, it can only be the previous block. */
  ghost predicate Held(u: Universe, s: State, stack: seq<Hash>, a: set<Hash>) {
    forall i | 0 <= i < |stack| ::
      (!Confirmed(s, stack[i]) && Dominates(u, stack, i)) || exists p :: Awaits(u, s, stack, a, i, p)
  }

  /** Entries that are held are stored, whatever other writers have rolled back or pruned, as long as the target is there. */
  lemma HeldStored(u: Universe, s0: State, s: State, target: Hash, stack: seq<Hash>, e: Hash)
    requires WF(u, s) && target in s.blocks && Held(u, s, stack, Unconfirmed(u, s0, target))
    requires e in stack && (e in Unconfirmed(u, s0, target) || e == target)
    ensures e in s.blocks
  {
    hide WF, Unconfirmed, Dominates;
    WFNonzero(u, s);
    WFAcyclic(u, s);
    var i :| 0 <= i < |stack| && stack[i] == e;
    DependenciesKnown(u, s0, s, target);
    if Confirmed(s, e) && e != target {
      var p :| Awaits(u, s, stack, Unconfirmed(u, s0, target), i, p);
      UnconfirmedNonzero(u, s0, target, e);
      PreviousStored(u, s, p);
    }
  }

  lemma UnconfirmedNonzero(u: Universe, s: State, target: Hash, e: Hash)
    requires Acyclic(u) && e in Unconfirmed(u, s, target)
    ensures e != ZERO
  {
    UnconfirmedIsClosed(u, s, target);
  }

  lemma HeldPop(u: Universe, s: State, s': State, stack: seq<Hash>, a: set<Hash>)
    requires Held(u, s, stack, a) && stack != []
    requires forall x :: Confirmed(s', x) ==> Confirmed(s, x) || x == Top(stack)
    ensures Held(u, s', stack[..|stack| - 1], a)
  {
    var k := |stack| - 1;
    var stack' := stack[..k];
    forall i | 0 <= i < k
      ensures (!Confirmed(s', stack'[i]) && Dominates(u, stack', i)) || exists p :: Awaits(u, s', stack', a, i, p)
    {
      assert u.rank(stack[k]) < u.rank(stack[i]) || exists p :: Awaits(u, s, stack, a, i, p);
      if p :| Awaits(u, s, stack, a, i, p) {
        assert p != stack[k];
        assert Awaits(u, s', stack', a, i, p);
      }
    }
  }

  lemma HeldAppend(u: Universe, s: State, stack: seq<Hash>, a: set<Hash>, above: seq<Hash>)
    requires Acyclic(u) && stack != [] && Held(u, s, stack, a) && Top(stack) in a && !Confirmed(s, Top(stack))
    requires above == Pending(s, u.content(Top(stack))) && above != []
    ensures Held(u, s, stack + above, a)
  {
    var k, all := |stack| - 1, stack + above;
    assert ContentOk(u, stack[k]);
    assert forall e | e in above :: u.rank(e) < u.rank(stack[k]) && !Confirmed(s, e);
    forall i | 0 <= i < |all|
      ensures (!Confirmed(s, all[i]) && Dominates(u, all, i)) || exists p :: Awaits(u, s, all, a, i, p)
    {
      if i < k {
        AppendHolds(u, s, stack, a, above, i);
      } else if i == k + 1 && |above| == 2 {
        assert Awaits(u, s, all, a, i, stack[k]);
      } else {
        assert Dominates(u, all, i);
      }
    }
  }

  lemma AppendHolds(u: Universe, s: State, stack: seq<Hash>, a: set<Hash>, above: seq<Hash>, i: nat)
    requires i + 1 < |stack| && forall e | e in above :: u.rank(e) < u.rank(Top(stack))
    requires (!Confirmed(s, stack[i]) && Dominates(u, stack, i)) || exists p :: Awaits(u, s, stack, a, i, p)
    ensures (!Confirmed(s, stack[i]) && Dominates(u, stack + above, i)) || exists p :: Awaits(u, s, stack + above, a, i, p)
  {
    if p :| Awaits(u, s, stack, a, i, p) {
      assert Awaits(u, s, stack + above, a, i, p);
    }
  }

  lemma HeldSame(u: Universe, s: State, s': State, stack: seq<Hash>, a: set<Hash>)
    requires forall x :: Confirmed(s', x) <==> Confirmed(s, x)
    ensures Held(u, s', stack, a) <==> Held(u, s, stack, a)
  {
    forall i, p | 0 <= i < |stack| ensures Awaits(u, s', stack, a, i, p) <==> Awaits(u, s, stack, a, i, p) {
    }
  }

  lemma HeldDrop(u: Universe, s: State, stack: seq<Hash>, a: set<Hash>, n: nat)
    requires Held(u, s, stack, a) && n <= |stack|
    ensures Held(u, s, stack[n..], a)
  {
    var stack' := stack[n..];
    forall i | 0 <= i < |stack'|
      ensures (!Confirmed(s, stack'[i]) && Dominates(u, stack', i)) || exists p :: Awaits(u, s, stack', a, i, p)
    {
      var k := i + n;
      if p :| Awaits(u, s, stack, a, k, p) {
        assert Awaits(u, s, stack', a, i, p);
      }
    }
  }

  lemma HeldPush(u: Universe, s: State, stack: seq<Hash>, a: set<Hash>, max: nat)
    requires Acyclic(u) && stack != [] && Held(u, s, stack, a) && Top(stack) in a && !Confirmed(s, Top(stack))
    requires !DepsConfirmed(s, u.content(Top(stack)))
    ensures Held(u, s, Expand(s, stack, u.content(Top(stack)), max), a)
  {
    hide Held, Expand, Acyclic;
    var b := u.content(Top(stack));
    var n := ExpandSuffix(s, stack, b, max);
    HeldAppend(u, s, stack, a, Pending(s, b));
    HeldDrop(u, s, stack + Pending(s, b), a, n);
  }

  // ----- the loop invariant ------------------------------------------------------------------------------------------

  /** What holds at the head of the loop of `confirm`, started in `s0`, after the blocks `hs` have been cemented. */
  ghost predicate Walking(u: Universe, s0: State, target: Hash, max: nat, s: State, stack: seq<Hash>, hs: seq<Hash>,
                          marks: seq<bool>) {
    && WF(u, s) && target in s.blocks
    && Trace(u, s0, hs, s)
    && (forall h | h in hs :: h in Unconfirmed(u, s0, target))
    && |stack| <= AtLeastOne(max)
    && (forall e | e in stack :: e in s.blocks && (e in Unconfirmed(u, s0, target) || e == target))
    && (!Confirmed(s0, target) && hs == [] ==> stack != [] && !Confirmed(s, Top(stack)))
    && (if Confirmed(s0, target) then |stack| <= 1 else Held(u, s, stack, Unconfirmed(u, s0, target)))
    && (max + 1 >= 2 * |Unconfirmed(u, s0, target)| ==> Expanded(u, s, stack, marks, target))
  }

  lemma WalkStart(u: Universe, s0: State, target: Hash, max: nat)
    requires WF(u, s0) && target in s0.blocks
    ensures Walking(u, s0, target, max, s0, [target], [], [false])
  {
    hide WF, Trace, Unconfirmed, Confirmed;
    WFAcyclic(u, s0);
    TraceRefl(u, s0);
    UnconfirmedIsClosed(u, s0, target);
    assert [false][..1] == [false] && [false][..0] == [];
  }

  /** A block with unconfirmed dependencies is itself unconfirmed, and its unconfirmed dependencies are stored. */
  lemma WalkDependencies(u: Universe, s0: State, target: Hash, max: nat, s: State, stack: seq<Hash>, hs: seq<Hash>,
                         marks: seq<bool>)
    requires Walking(u, s0, target, max, s, stack, hs, marks)
    requires stack != [] && !DepsConfirmed(s, s.blocks[Top(stack)])
    ensures var h, b := Top(stack), s.blocks[Top(stack)];
            && !Confirmed(s, h) && b == u.content(h)
            && (forall e | e in stack || e in Pending(s, b) :: e in Unconfirmed(u, s0, target))
            && (forall d | d in {b.dep0, b.dep1} && d != ZERO && !Confirmed(s, d) :: d in Pending(s, b) && d in s.blocks)
  {
    hide Expanded, Unconfirmed;
    var b := s.blocks[Top(stack)];
    UnconfirmedIsClosed(u, s0, target);
    assert b.dep0 != ZERO ==> Known(s, b.dep0);
    assert b.dep1 != ZERO ==> Known(s, b.dep1);
    assert !Confirmed(s, Top(stack));
    assert Top(stack) in Unconfirmed(u, s0, target);
  }

  /** Dependencies were pushed: the new top is unconfirmed and of lower rank. */
  lemma WalkPush(u: Universe, s0: State, target: Hash, max: nat, s: State, stack: seq<Hash>, hs: seq<Hash>,
                 marks: seq<bool>) returns (marks': seq<bool>)
    requires Walking(u, s0, target, max, s, stack, hs, marks)
    requires stack != [] && !DepsConfirmed(s, s.blocks[Top(stack)])
    ensures !Confirmed(s, Top(stack))
    ensures var stack' := Expand(s, stack, s.blocks[Top(stack)], max);
            && Walking(u, s0, target, max, s, stack', hs, marks')
            && stack' != [] && !Confirmed(s, Top(stack')) && u.rank(Top(stack')) < u.rank(Top(stack))
  {
    hide WF, Trace, Unconfirmed, Expanded, Expand, Pending, Held, Confirmed, DepsConfirmed;
    WFAcyclic(u, s);
    WalkDependencies(u, s0, target, max, s, stack, hs, marks);
    UnconfirmedIsClosed(u, s0, target);
    ExpandTop(s, stack, s.blocks[Top(stack)], max);
    assert ContentOk(u, Top(stack));
    if max + 1 >= 2 * |Unconfirmed(u, s0, target)| {
      marks' := ExpandedPush(u, s, stack, marks, target, Unconfirmed(u, s0, target), max);
    } else {
      marks' := marks;
    }
    HeldPush(u, s, stack, Unconfirmed(u, s0, target), max);
  }

  /** The top was confirmed already and is dropped. */
  lemma WalkPop(u: Universe, s0: State, target: Hash, max: nat, s: State, stack: seq<Hash>, hs: seq<Hash>,
                marks: seq<bool>)
    requires Walking(u, s0, target, max, s, stack, hs, marks)
    requires stack != [] && Confirmed(s, Top(stack))
    ensures Walking(u, s0, target, max, s, stack[..|stack| - 1], hs, if marks == [] then [] else marks[..|marks| - 1])
  {
    hide WF, Trace, Unconfirmed, Held;
    WFAcyclic(u, s);
    if !Confirmed(s0, target) {
      HeldPop(u, s, s, stack, Unconfirmed(u, s0, target));
    }
    if max + 1 >= 2 * |Unconfirmed(u, s0, target)| {
      ExpandedPop(u, s, s, stack, marks, target);
    }
  }

  /** The top was cemented. */
  lemma WalkCement(u: Universe, s0: State, target: Hash, max: nat, s: State, stack: seq<Hash>, hs: seq<Hash>,
                   marks: seq<bool>)
    requires Walking(u, s0, target, max, s, stack, hs, marks)
    requires stack != [] && !Confirmed(s, Top(stack)) && DepsConfirmed(s, s.blocks[Top(stack)])
    ensures var h := Top(stack);
            Walking(u, s0, target, max, Cement(s, s.blocks[h]), stack[..|stack| - 1], hs + [h],
                    if marks == [] then [] else marks[..|marks| - 1])
    ensures |hs| + 1 <= |Unconfirmed(u, s0, target)|
  {
    hide WF, Trace, Unconfirmed, Held;
    WFAcyclic(u, s);
    var h := Top(stack);
    var s' := Cement(s, s.blocks[h]);
    if !Confirmed(s0, target) {
      CementConfirms(u, s, h);
      HeldPop(u, s, s', stack, Unconfirmed(u, s0, target));
    }
    CementKeepsWF(u, s, h);
    CementConfirms(u, s, h);
    TraceCement(u, s0, hs, s, h);
    UnconfirmedIsClosed(u, s0, target);
    assert h in Unconfirmed(u, s0, target) by { TracePruned(u, s0, hs, s); assert h != ZERO by { WFNonzero(u, s); } }
    assert forall x | x in hs + [h] :: x in Unconfirmed(u, s0, target);
    TraceDistinct(u, s0, hs + [h], s');
    DistinctWithin(hs + [h], Unconfirmed(u, s0, target));
    if max + 1 >= 2 * |Unconfirmed(u, s0, target)| {
      ExpandedPop(u, s, s', stack, marks, target);
    }
  }

  /** Other writers acted, but the target is still there: then so is everything on the stack. */
  lemma WalkInterference(u: Universe, s0: State, target: Hash, max: nat, s: State, stack: seq<Hash>, hs: seq<Hash>,
                         marks: seq<bool>, t: Tables)
    requires Walking(u, s0, target, max, s, stack, hs, marks)
    requires Interferes(u, s, t) && target in t.blocks
    ensures Walking(u, s0, target, max, With(s, t), stack, hs, marks)
  {
    hide WF, Expanded, Unconfirmed, Trace, Held;
    WFAcyclic(u, s);
    var s' := With(s, t);
    TraceInterference(u, s0, hs, s, t);
    HeldSame(u, s, s', stack, Unconfirmed(u, s0, target));
    forall e | e in stack ensures e in s'.blocks {
      if Confirmed(s0, target) {
        UnconfirmedIsClosed(u, s0, target);
      } else {
        HeldStored(u, s0, s', target, stack, e);
      }
    }
    if max + 1 >= 2 * |Unconfirmed(u, s0, target)| {
      ExpandedSame(u, s, s', stack, marks, target);
    }
  }

  /** When the limit is large enough, the walk ends with the target confirmed. */
  lemma WalkDone(u: Universe, s0: State, target: Hash, max: nat, s: State, stack: seq<Hash>, hs: seq<Hash>,
                 marks: seq<bool>)
    requires Walking(u, s0, target, max, s, stack, hs, marks)
    requires stack == [] || |hs| >= max
    requires max + 1 >= 2 * |Unconfirmed(u, s0, target)|
    ensures Confirmed(s, target)
  {
    if stack != [] && !Confirmed(s, target) {
      UnconfirmedIsClosed(u, s0, target);
      DistinctWithin(hs, Unconfirmed(u, s0, target));
    }
  }

  /** What the head of the loop needs to know about the walk. */
  lemma WalkFacts(u: Universe, s0: State, target: Hash, max: nat, s: State, stack: seq<Hash>, hs: seq<Hash>,
                  marks: seq<bool>)
    requires Walking(u, s0, target, max, s, stack, hs, marks)
    ensures WF(u, s) && target in s.blocks && Trace(u, s0, hs, s)
    ensures forall h | h in hs :: h in Unconfirmed(u, s0, target)
    ensures |stack| <= AtLeastOne(max)
    ensures forall e | e in stack :: e in s.blocks && s.blocks[e] == u.content(e) && s.blocks[e].hash == e
    ensures |hs| <= |Unconfirmed(u, s0, target)|
    ensures !Confirmed(s0, target) && hs == [] ==> stack != []
  {
    DistinctWithin(hs, Unconfirmed(u, s0, target));
    assert forall e | e in stack :: ContentOk(u, e);
  }

  // ----- the imperative form -----------------------------------------------------------------------------------------

  function Hashes(blocks: seq<Block>): (hs: seq<Hash>)
    ensures |hs| == |blocks|
  {
    seq(|blocks|, i requires 0 <= i < |blocks| => blocks[i].hash)
  }

  lemma HashesConcat(a: seq<Block>, b: seq<Block>)
    ensures Hashes(a + b) == Hashes(a) + Hashes(b)
  {
  }

  lemma HashesOne(b: Block)
    ensures Hashes([b]) == [b.hash]
  {
  }

  /** The ledger tables, together with the number of times other writers have been given a chance to act. */
  class Ledger {
    var blocks: map<Hash, Block>
    var pruned: set<Hash>
    var conf: map<Key, ConfInfo>
    var confirmedCount: nat
    var ticks: nat

    function Value(): State
      reads this
    {
      State(blocks, pruned, conf, confirmedCount)
    }

    /** Releases the write transaction if it has been open for too long. */
    method RefreshIfNeeded(env: Env, ghost u: Universe) returns (refreshed: bool)
      requires WF(u, Value()) && EnvOk(u, env)
      modifies `blocks, `pruned, `ticks
      ensures ticks == old(ticks) + 1
      ensures refreshed == env.step(old(ticks), old(Value())).Some?
      ensures Value() == if refreshed then With(old(Value()), env.step(old(ticks), old(Value())).value) else old(Value())
      ensures WF(u, Value())
      ensures refreshed ==> Interferes(u, old(Value()), Tables(blocks, pruned))
      ensures forall h :: Confirmed(Value(), h) <==> Confirmed(old(Value()), h)
    {
      var next := env.step(ticks, Value());
      refreshed := next.Some?;
      if next.Some? {
        blocks, pruned := next.value.blocks, next.value.pruned;
      }
      ticks := ticks + 1;
    }

    /** Pushes the unconfirmed dependencies of `block`, forgetting the bottom of the stack when it gets too large. */
    method PushDependents(stack: seq<Hash>, block: Block, max: nat) returns (stack': seq<Hash>)
      ensures stack' == Expand(Value(), stack, block, max)
    {
      var dependents := [block.dep0, block.dep1];
      stack' := stack;
      var i := 0;
      while i < |dependents|
        invariant i <= |dependents|
        invariant PushAll(Value(), stack', dependents[i..], max) == Expand(Value(), stack, block, max)
      {
        var dependent := dependents[i];
        assert dependents[i..][1..] == dependents[i + 1..];
        if dependent != ZERO && !Confirmed(Value(), dependent) {
          stack' := stack' + [dependent];
          if |stack'| > max {
            stack' := stack'[1..];
          }
        }
        i := i + 1;
      }
    }

    /** One round of the loop of `Confirm`: pushes the unconfirmed dependencies of the block on top of the stack, or, when
        there are none, pops that block and cements it. */
    method VisitTop(stack: seq<Hash>, result: seq<Block>, max: nat, ghost u: Universe, ghost s0: State,
                    ghost target: Hash, ghost marks: seq<bool>)
        returns (stack': seq<Hash>, result': seq<Block>, ghost marks': seq<bool>)
      requires Walking(u, s0, target, max, Value(), stack, Hashes(result), marks) && stack != []
      requires forall i | 0 <= i < |result| :: result[i] == u.content(result[i].hash)
      modifies `conf, `confirmedCount
      ensures Walking(u, s0, target, max, Value(), stack', Hashes(result'), marks')
      ensures forall i | 0 <= i < |result'| :: result'[i] == u.content(result'[i].hash)
      ensures |result| <= |result'| <= |result| + 1
      ensures !DepsConfirmed(old(Value()), old(blocks)[Top(stack)]) ==> result' == result && Value() == old(Value())
      ensures |result'| == |result| ==>
                && Value() == old(Value())
                && if Confirmed(Value(), Top(stack)) then stack' == stack[..|stack| - 1]
                   else stack' != [] && !Confirmed(Value(), Top(stack')) && u.rank(Top(stack')) < u.rank(Top(stack))
    {
      hide Walking, WF, Trace, Expanded, Unconfirmed, Confirmed, DepsConfirmed, Expand, Hashes;
      ghost var s, hs := Value(), Hashes(result);
      WalkFacts(u, s0, target, max, s, stack, hs, marks);
      result', marks' := result, marks;
      var hash := stack[|stack| - 1];
      var block := blocks[hash];
      stack' := PushDependents(stack, block, max);
      ExpandTop(s, stack, block, max);
      if !DepsConfirmed(s, block) {
        marks' := WalkPush(u, s0, target, max, s, stack, hs, marks);
      }
      if stack' != [] && stack'[|stack'| - 1] == hash {
        stack' := stack'[..|stack'| - 1];
        marks' := if marks == [] then [] else marks[..|marks| - 1];
        if !Confirmed(Value(), hash) {
          WalkCement(u, s0, target, max, s, stack, hs, marks);
          conf := conf[block.account := ConfInfo(block.height, block.hash)];
          confirmedCount := confirmedCount + 1;
          HashesConcat(result, [block]);
          HashesOne(block);
          result' := result + [block];
        } else {
          WalkPop(u, s0, target, max, s, stack, hs, marks);
        }
      }
    }

    /** The target has an unconfirmed dependency, and other writers take it out at the first chance. */
    ghost predicate Interrupted(env: Env, target: Hash)
      requires target in blocks
      reads this
    {
      && !DepsConfirmed(Value(), blocks[target])
      && env.step(ticks, Value()).Some? && target !in env.step(ticks, Value()).value.blocks
    }

    /** Cements `target` and the blocks it depends on.  Other writers may act between any two steps. */
    method Confirm(env: Env, target: Hash, max: nat, ghost u: Universe, ghost quiet: nat) returns (result: seq<Block>)
      requires WF(u, Value()) && EnvOk(u, env)
      requires target in blocks
      modifies this
      ensures WF(u, Value())
      ensures ticks > old(ticks)
      ensures Stays(env, quiet, target) && old(ticks) >= quiet ==> target in blocks
      // The result lists exactly the newly confirmed blocks, each once, dependencies first ...
      ensures Trace(u, old(Value()), Hashes(result), Value())
      ensures forall i | 0 <= i < |result| :: result[i] == u.content(result[i].hash)
      // ... all of them dependencies of the target, and never more than the limit.
      ensures forall h | h in Hashes(result) :: h in Unconfirmed(u, old(Value()), target)
      ensures |result| <= AtLeastOne(max)
      // Progress: unless the target is rolled back meanwhile, something is confirmed ...
      ensures max >= 1 && !Confirmed(old(Value()), target) && target in blocks ==> result != []
      // ... and everything, when the limit leaves room for two stack entries per unconfirmed block but the last.
      ensures max + 1 >= 2 * |Unconfirmed(u, old(Value()), target)| && target in blocks ==> Confirmed(Value(), target)
      // A target with an unconfirmed dependency that is rolled back at the first refresh leaves nothing confirmed.
      ensures old(Interrupted(env, target)) ==>
                && result == [] && ticks == old(ticks) + 1
                && Value() == With(old(Value()), env.step(old(ticks), old(Value())).value)
    {
      hide Walking, WF, Trace, Expanded, Unconfirmed, Interferes, EnvOk, Confirmed, DepsConfirmed, Expand, Hashes;
      assert Acyclic(u) by { WFAcyclic(u, Value()); }
      ghost var s0 := Value();
      ghost var a := Unconfirmed(u, s0, target);
      ghost var marks, walking, interrupted := [false], true, Interrupted(env, target);
      result := [];
      var stack := [target];
      WalkStart(u, s0, target, max);
      assert Hashes(result) == [];
      while stack != []
        invariant Walking(u, s0, target, max, Value(), stack, Hashes(result), marks)
        invariant forall i | 0 <= i < |result| :: result[i] == u.content(result[i].hash)
        invariant if ticks == old(ticks) then result == [] && stack == [target] && Value() == s0
                  else ticks > old(ticks) && |result| < max && !interrupted
        decreases |a| - |result|,
                  stack != [] && Confirmed(Value(), Top(stack)),
                  if stack == [] then 0 else if Confirmed(Value(), Top(stack)) then |stack| else u.rank(Top(stack))
      {
        stack, result, marks := VisitTop(stack, result, max, u, s0, target, marks);
        ghost var s1 := Value();
        WalkFacts(u, s0, target, max, s1, stack, Hashes(result), marks);
        var refreshed := RefreshIfNeeded(env, u);
        if refreshed {
          TraceInterference(u, s0, Hashes(result), s1, Tables(blocks, pruned));
          if target !in blocks {
            walking := false;
            break;
          }
          WalkInterference(u, s0, target, max, s1, stack, Hashes(result), marks, Tables(blocks, pruned));
        }
        if |result| >= max {
          break;
        }
      }
      assert walking || !(Stays(env, quiet, target) && old(ticks) >= quiet);
      if walking {
        WalkFacts(u, s0, target, max, Value(), stack, Hashes(result), marks);
        if max + 1 >= 2 * |a| {
          WalkDone(u, s0, target, max, Value(), stack, Hashes(result), marks);
        }
      }
    }
  }
}
