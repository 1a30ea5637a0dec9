/** The rate limiter of the bandwidth limits: tokens are refilled at a fixed rate up to a capacity. */
module TokenBucket {
  import opened Wrappers
  import opened Clock

  const UNLIMITED: nat := 1_000_000_000

  /** Times are in nanoseconds, the rate in tokens per second. */
  datatype State = State(lastRefill: Option<int>, size: nat, max: nat, smallest: nat, rate: nat)

  datatype Call = Call(tokens: nat, now: int)

  function Min(a: nat, b: nat): nat {
    if a < b then a else b
  }

  function Earned(elapsed: nat, rate: nat): nat {
    elapsed * rate / 1_000_000_000
  }

  /** `reset_with`: a full bucket, unlimited if either number is zero. */
  function Full(max: nat, rate: nat): State {
    if max == 0 || rate == 0 then State(None, UNLIMITED, UNLIMITED, UNLIMITED, UNLIMITED)
    else State(None, max, max, max, rate)
  }

  function Refilled(b: State, now: int): State {
    if b.lastRefill.None? then b.(lastRefill := Some(now))
    else
      var n := Earned(Elapsed(b.lastRefill.value, now), b.rate);
      if n == 0 then b else b.(size := Min(b.size + n, b.max), lastRefill := Some(now))
  }

  function Taken(b: State, tokens: nat): State {
    var size := if b.size >= tokens then b.size - tokens else if tokens == UNLIMITED then 0 else b.size;
    b.(size := size, smallest := Min(b.smallest, size))
  }

  function Consumed(b: State, call: Call): State {
    Taken(Refilled(b, call.now), call.tokens)
  }

  /** The tokens that a call hands out: all that it asks for, or none. */
  function Granted(b: State, call: Call): nat {
    if Refilled(b, call.now).size >= call.tokens || b.rate == UNLIMITED then call.tokens else 0
  }

  class TokenBucket {
    var lastRefill: Option<int>
    var size: nat
    var max: nat
    var smallest: nat
    var rate: nat

    function Value(): State
      reads this
    {
      State(lastRefill, size, max, smallest, rate)
    }

    constructor (maxTokens: nat, refillRate: nat)
      ensures Value() == Full(maxTokens, refillRate)
    {
      lastRefill, size, max, smallest, rate := None, 0, maxTokens, 0, refillRate;
      new;
      ResetWith(maxTokens, refillRate);
    }

    method ResetWith(maxTokens: nat, refillRate: nat)
      modifies this
      ensures Value() == Full(maxTokens, refillRate)
    {
      var m, r := maxTokens, refillRate;
      if m == 0 || r == 0 {
        m, r := UNLIMITED, UNLIMITED;
      }
      smallest, max, size, rate, lastRefill := m, m, m, r, None;
    }

    method Refill(now: int)
      modifies this
      ensures Value() == Refilled(old(Value()), now)
    {
      if lastRefill.None? {
        lastRefill := Some(now);
        return;
      }
      var tokens := Earned(Elapsed(lastRefill.value, now), rate);
      if tokens > 0 {
        size := Min(size + tokens, max);
        lastRefill := Some(now);
      }
    }

    method TryConsume(tokens: nat, now: int) returns (ok: bool)
      modifies this
      ensures Value() == Consumed(old(Value()), Call(tokens, now))
      ensures Granted(old(Value()), Call(tokens, now)) == if ok then tokens else 0
    {
      Refill(now);
      var possible := size >= tokens;
      if possible {
        size := size - tokens;
      } else if tokens == UNLIMITED {
        size := 0;
      }
      smallest := Min(smallest, size);
      ok := possible || rate == UNLIMITED;
    }
  }

  // ---- Whole runs ----

  /** The calls come in order, from `from` on and up to `to`. */
  ghost predicate Ordered(calls: seq<Call>, from: int, to: int) {
    && (calls == [] ==> from <= to)
    && (calls != [] ==> from <= calls[0].now && Ordered(calls[1..], calls[0].now, to))
  }

  ghost function Run(b: State, calls: seq<Call>): State
    decreases |calls|
  {
    if calls == [] then b else Run(Consumed(b, calls[0]), calls[1..])
  }

  ghost function TotalGranted(b: State, calls: seq<Call>): nat
    decreases |calls|
  {
    if calls == [] then 0 else Granted(b, calls[0]) + TotalGranted(Consumed(b, calls[0]), calls[1..])
  }

  /** What a bucket holds at a time, in billionths of a token: its tokens and the time not yet turned into tokens. */
  ghost function Holding(b: State, now: int): nat {
    b.size * 1_000_000_000 + if b.lastRefill.Some? then Elapsed(b.lastRefill.value, now) * b.rate else 0
  }

  ghost predicate Limited(b: State) {
    b.rate != UNLIMITED && b.size <= b.max
  }

  lemma Distributes(a: nat, b: nat, c: nat, k: nat)
    requires a <= b + c
    ensures a * k <= b * k + c * k
  {
  }

  lemma HoldingGrows(b: State, now: int, later: int)
    requires now <= later
    ensures Holding(b, later) <= Holding(b, now) + b.rate * (later - now)
  {
    if b.lastRefill.Some? {
      var last := b.lastRefill.value;
      var d := later - now;
      assert (now - last + d) % 0x1_0000_0000_0000_0000 <= (now - last) % 0x1_0000_0000_0000_0000 + d;
      Distributes(Elapsed(last, later), Elapsed(last, now), d, b.rate);
    }
  }

  lemma RefillHolds(b: State, now: int)
    requires Limited(b)
    ensures Limited(Refilled(b, now)) && Refilled(b, now).max == b.max && Refilled(b, now).rate == b.rate
    ensures Refilled(b, now).lastRefill.Some?
    ensures Holding(Refilled(b, now), now) <= Holding(b, now)
    ensures Holding(Refilled(b, now), now) < Refilled(b, now).size * 1_000_000_000 + 1_000_000_000
  {
  }

  /** After a call less than one token's worth of time is left unused. */
  lemma ConsumedHolds(b: State, call: Call)
    requires Limited(b)
    ensures var b' := Consumed(b, call);
      && Limited(b') && b'.max == b.max && b'.rate == b.rate && b'.lastRefill.Some?
      && Holding(b', call.now) < b'.max * 1_000_000_000 + 1_000_000_000
      && Granted(b, call) * 1_000_000_000 + Holding(b', call.now) <= Holding(b, call.now)
  {
    RefillHolds(b, call.now);
  }

  /** Conservation: what is handed out was held at the start or was earned since. */
  lemma {:induction false} Conserved(b: State, calls: seq<Call>, from: int, to: int)
    requires Limited(b) && Ordered(calls, from, to)
    ensures from <= to
    ensures TotalGranted(b, calls) * 1_000_000_000 + Holding(Run(b, calls), to) <= Holding(b, from) + b.rate * (to - from)
    decreases |calls|
  {
    if calls == [] {
      HoldingGrows(b, from, to);
    } else {
      var now := calls[0].now;
      HoldingGrows(b, from, now);
      ConsumedHolds(b, calls[0]);
      Conserved(Consumed(b, calls[0]), calls[1..], now, to);
      assert b.rate * (to - from) == b.rate * (now - from) + b.rate * (to - now);
    }
  }

  /**
   * The rate limit: after any call at `first.now`, the tokens handed out up to `to` are at most the
   * capacity, the tokens earned in between, and one more.
   */
  lemma RateLimit(b: State, first: Call, calls: seq<Call>, to: int)
    requires Limited(b) && Ordered(calls, first.now, to)
    ensures first.now <= to
    ensures TotalGranted(Consumed(b, first), calls) * 1_000_000_000 < (b.max + 1) * 1_000_000_000 + b.rate * (to - first.now)
  {
    ConsumedHolds(b, first);
    Conserved(Consumed(b, first), calls, first.now, to);
  }

  /** Counted from the first call of a new bucket, the extra token is not there. */
  lemma RateLimitFromStart(max: nat, rate: nat, first: Call, calls: seq<Call>, to: int)
    requires max > 0 && rate > 0 && rate != UNLIMITED
    requires Ordered(calls, first.now, to)
    ensures first.now <= to
    ensures TotalGranted(Full(max, rate), [first] + calls) * 1_000_000_000 <= max * 1_000_000_000 + rate * (to - first.now)
  {
    var all := [first] + calls;
    assert all[1..] == calls;
    Conserved(Full(max, rate), all, first.now, to);
  }

  /** The extra token cannot be dropped from `RateLimit`: two tokens in a tenth of a second at one token a second. */
  lemma ExtraTokenIsReal() returns (b: State, first: Call, calls: seq<Call>, to: int)
    ensures b == Consumed(Full(1, 1), Call(0, 0)) && Limited(b) && 0 <= first.now && Ordered(calls, first.now, to)
    ensures TotalGranted(Consumed(b, first), calls) * 1_000_000_000 > b.max * 1_000_000_000 + b.rate * (to - first.now)
  {
    b, first, to := State(Some(0), 1, 1, 1, 1), Call(0, 900_000_000), 1_000_000_000;
    var second, third := Call(1, 900_000_000), Call(1, to);
    calls := [second, third];
    assert Consumed(b, first) == b;
    assert Granted(b, second) == 1 && Consumed(b, second) == b.(size := 0, smallest := 0);
    assert Granted(Consumed(b, second), third) == 1;
    TwoCalls(b, second, third);
  }

  lemma TwoCalls(b: State, x: Call, y: Call)
    ensures TotalGranted(b, [x, y]) == Granted(b, x) + Granted(Consumed(b, x), y)
    ensures Ordered([x, y], x.now, y.now) <==> x.now <= y.now
  {
    hide Granted, Consumed;
    assert [x, y][1..] == [y] && [y][1..] == [];
    assert Ordered([], y.now, y.now) && (Ordered([y], x.now, y.now) <==> x.now <= y.now);
    assert TotalGranted(Consumed(b, x), [y]) == Granted(Consumed(b, x), y) + TotalGranted(Consumed(Consumed(b, x), y), []);
  }

  /** No starvation: after any call, a request within the capacity is granted once its tokens could be earned. */
  lemma GrantedAfterWait(b: State, first: Call, next: Call)
    requires Limited(b) && next.tokens <= b.max
    requires first.now <= next.now
    requires b.lastRefill.Some? ==> b.lastRefill.value <= first.now && next.now < b.lastRefill.value + 0x1_0000_0000_0000_0000
    requires next.now < first.now + 0x1_0000_0000_0000_0000
    requires (next.now - first.now) * b.rate >= next.tokens * 1_000_000_000
    ensures Granted(Consumed(b, first), next) == next.tokens
  {
    ConsumedHolds(b, first);
    var b' := Consumed(b, first);
    var last := b'.lastRefill.value;
    assert last <= first.now && Elapsed(last, next.now) == next.now - last;
    assert (next.now - last) * b.rate >= (next.now - first.now) * b.rate;
    assert Earned(Elapsed(last, next.now), b.rate) >= next.tokens;
  }

  /** The smallest size is the least of all sizes after a call, from which the largest burst is derived. */
  lemma {:induction false} SmallestSize(b: State, calls: seq<Call>)
    requires b.smallest <= b.size
    ensures Run(b, calls).smallest <= b.smallest
    ensures forall i | 0 <= i <= |calls| :: Run(b, calls).smallest <= Run(b, calls[..i]).size
    ensures Run(b, calls).smallest == b.smallest || exists i :: 0 <= i <= |calls| && Run(b, calls).smallest == Run(b, calls[..i]).size
    decreases |calls|
  {
    if calls == [] {
      assert calls[..0] == [];
    } else {
      var k := |calls| - 1;
      SmallestSize(b, calls[..k]);
      RunSnoc(b, calls);
      assert calls[..|calls|] == calls;
      forall i | 0 <= i <= |calls| ensures Run(b, calls).smallest <= Run(b, calls[..i]).size {
        if i <= k {
          assert calls[..k][..i] == calls[..i];
        }
      }
      if Run(b, calls).smallest != Run(b, calls).size && Run(b, calls).smallest != b.smallest {
        var i :| 0 <= i <= k && Run(b, calls[..k]).smallest == Run(b, calls[..k][..i]).size;
        assert calls[..k][..i] == calls[..i];
      }
    }
  }

  lemma {:induction false} RunSnoc(b: State, calls: seq<Call>)
    requires calls != []
    ensures Run(b, calls) == Consumed(Run(b, calls[..|calls| - 1]), calls[|calls| - 1])
    decreases |calls|
  {
    if |calls| > 1 {
      RunSnoc(Consumed(b, calls[0]), calls[1..]);
      assert calls[1..][..|calls| - 2] == calls[..|calls| - 1][1..];
    } else {
      assert calls[..0] == [] && calls[1..] == [];
    }
  }

  /** A request for the sentinel amount empties every bucket that is no larger. */
  lemma SentinelEmpties(b: State, now: int)
    requires b.size <= b.max <= UNLIMITED
    ensures Consumed(b, Call(UNLIMITED, now)).size == 0
  {
  }

  /** A limit of zero means no limit: every request is granted, in every run. */
  lemma {:induction false} UnlimitedGrantsAll(b: State, calls: seq<Call>)
    requires b.rate == UNLIMITED
    ensures forall i | 0 <= i < |calls| :: Granted(Run(b, calls[..i]), calls[i]) == calls[i].tokens
  {
    forall i | 0 <= i < |calls| ensures Granted(Run(b, calls[..i]), calls[i]) == calls[i].tokens {
      RunKeepsRate(b, calls[..i]);
    }
  }

  lemma {:induction false} RunKeepsRate(b: State, calls: seq<Call>)
    ensures Run(b, calls).rate == b.rate && Run(b, calls).max == b.max
    decreases |calls|
  {
    if calls != [] {
      RunKeepsRate(Consumed(b, calls[0]), calls[1..]);
    }
  }
}
