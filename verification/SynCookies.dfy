/** The cookies of node id handshakes: at most one per endpoint, and a bounded number per IP address. */
module SynCookies {
  import opened Wrappers
  import opened Bytes
  import opened Addresses

  datatype CookieInfo = CookieInfo(cookie: B32, createdAt: nat)

  /** The two tables: cookies by endpoint, and the number of cookies by IP address. */
  datatype Cookies = Cookies(byEndpoint: map<Endpoint, CookieInfo>, perIp: map<Ip, nat>)

  function CountFor(perIp: map<Ip, nat>, ip: Ip): nat {
    if ip in perIp then perIp[ip] else 0
  }

  ghost function LiveAt(cookies: map<Endpoint, CookieInfo>, ip: Ip): set<Endpoint> {
    set e | e in cookies && e.ip == ip
  }

  /** The counters are exact and within the limit. */
  ghost predicate Counted(c: Cookies, max: nat) {
    forall ip :: CountFor(c.perIp, ip) == |LiveAt(c.byEndpoint, ip)| <= max
  }

  /** `assign`: a new cookie, unless the endpoint has one or its IP address has too many. */
  function Assigned(c: Cookies, endpoint: Endpoint, info: CookieInfo, max: nat): (Option<B32>, Cookies) {
    if endpoint in c.byEndpoint then (None, c)
    else
      var n := CountFor(c.perIp, endpoint.ip);
      if n < max
      then (Some(info.cookie), Cookies(c.byEndpoint[endpoint := info], c.perIp[endpoint.ip := n + 1]))
      else (None, c.(perIp := c.perIp[endpoint.ip := n]))
  }

  /** The tables without the cookie of `endpoint`. */
  ghost function Removed(c: Cookies, endpoint: Endpoint): Cookies {
    var n := CountFor(c.perIp, endpoint.ip);
    Cookies(c.byEndpoint - {endpoint}, c.perIp[endpoint.ip := if n > 0 then n - 1 else 0])
  }

  lemma RemovedCounted(c: Cookies, endpoint: Endpoint, max: nat)
    requires Counted(c, max) && endpoint in c.byEndpoint
    ensures CountFor(c.perIp, endpoint.ip) > 0
    ensures Counted(Removed(c, endpoint), max)
  {
    var live := LiveAt(c.byEndpoint, endpoint.ip);
    assert endpoint in live && CountFor(c.perIp, endpoint.ip) == |live|;
    var c' := Removed(c, endpoint);
    forall ip ensures CountFor(c'.perIp, ip) == |LiveAt(c'.byEndpoint, ip)| <= max {
      if ip == endpoint.ip {
        assert LiveAt(c'.byEndpoint, ip) == live - {endpoint};
      } else {
        assert LiveAt(c'.byEndpoint, ip) == LiveAt(c.byEndpoint, ip);
        assert CountFor(c.perIp, ip) == |LiveAt(c.byEndpoint, ip)|;
      }
    }
  }

  lemma LiveAfter(m: map<Endpoint, CookieInfo>, endpoint: Endpoint, info: CookieInfo, ip: Ip)
    requires endpoint !in m
    ensures |LiveAt(m[endpoint := info], ip)| == |LiveAt(m, ip)| + if ip == endpoint.ip then 1 else 0
  {
    assert LiveAt(m[endpoint := info], ip) == LiveAt(m, ip) + if ip == endpoint.ip then {endpoint} else {};
  }

  lemma AssignedCounted(c: Cookies, endpoint: Endpoint, info: CookieInfo, max: nat)
    requires Counted(c, max)
    ensures Counted(Assigned(c, endpoint, info, max).1, max)
  {
    var c' := Assigned(c, endpoint, info, max).1;
    forall ip ensures CountFor(c'.perIp, ip) == |LiveAt(c'.byEndpoint, ip)| <= max {
      assert CountFor(c.perIp, ip) == |LiveAt(c.byEndpoint, ip)|;
      if endpoint !in c.byEndpoint {
        LiveAfter(c.byEndpoint, endpoint, info, ip);
      }
    }
  }

  /** The life of every cookie that was ever handed out, by its number: to whom it was issued, which ones are live, and which
      were taken out to check a signature or dropped because of their age. */
  datatype Records = Records(
    next: nat, issued: map<nat, (Endpoint, B32)>, live: map<Endpoint, nat>, taken: set<nat>, dropped: set<nat>)

  /** Every issued cookie is live, taken or dropped, and only one of these; the live ones are those in the table. */
  ghost predicate RecordsOk(l: Records, byEndpoint: map<Endpoint, CookieInfo>) {
    && l.live.Keys == byEndpoint.Keys
    && (forall e | e in l.live ::
          l.live[e] in l.issued && l.issued[l.live[e]] == (e, byEndpoint[e].cookie)
          && l.live[e] !in l.taken && l.live[e] !in l.dropped)
    && l.taken !! l.dropped
    && (forall n | n in l.issued :: n in l.taken || n in l.dropped || (l.issued[n].0 in l.live && l.live[l.issued[n].0] == n))
    && l.taken <= l.issued.Keys && l.dropped <= l.issued.Keys
    && (forall n | n in l.issued :: n < l.next)
  }

  ghost function MarkIssued(l: Records, endpoint: Endpoint, cookie: B32): Records {
    l.(next := l.next + 1, issued := l.issued[l.next := (endpoint, cookie)], live := l.live[endpoint := l.next])
  }

  ghost function MarkTaken(l: Records, endpoint: Endpoint): Records {
    if endpoint in l.live then l.(live := l.live - {endpoint}, taken := l.taken + {l.live[endpoint]}) else l
  }

  ghost function MarkDropped(l: Records, endpoint: Endpoint): Records {
    if endpoint in l.live then l.(live := l.live - {endpoint}, dropped := l.dropped + {l.live[endpoint]}) else l
  }

  /** What is issued stays issued, and what was taken stays taken. */
  ghost predicate Grows(l: Records, l': Records) {
    && l.taken <= l'.taken
    && forall n | n in l.issued :: n in l'.issued && l'.issued[n] == l.issued[n]
  }

  lemma IssueOk(l: Records, byEndpoint: map<Endpoint, CookieInfo>, endpoint: Endpoint, info: CookieInfo)
    requires RecordsOk(l, byEndpoint) && endpoint !in byEndpoint
    ensures RecordsOk(MarkIssued(l, endpoint, info.cookie), byEndpoint[endpoint := info])
    ensures Grows(l, MarkIssued(l, endpoint, info.cookie))
  {
    assert l.next !in l.issued;
  }

  lemma TakeOk(l: Records, byEndpoint: map<Endpoint, CookieInfo>, endpoint: Endpoint)
    requires RecordsOk(l, byEndpoint)
    ensures RecordsOk(MarkTaken(l, endpoint), byEndpoint - {endpoint}) && Grows(l, MarkTaken(l, endpoint))
    ensures RecordsOk(MarkDropped(l, endpoint), byEndpoint - {endpoint}) && Grows(l, MarkDropped(l, endpoint))
  {
  }

  class SynCookies {
    var byEndpoint: map<Endpoint, CookieInfo>
    var perIp: map<Ip, nat>
    const maxPerIp: nat
    ghost var records: Records

    constructor (maxPerIp: nat)
      ensures Valid() && this.maxPerIp == maxPerIp && byEndpoint == map[] && records == Records(0, map[], map[], {}, {})
    {
      byEndpoint, perIp, records := map[], map[], Records(0, map[], map[], {}, {});
      this.maxPerIp := maxPerIp;
      new;
      forall ip ensures LiveAt(byEndpoint, ip) == {} {}
    }

    function Value(): Cookies
      reads this
    {
      Cookies(byEndpoint, perIp)
    }

    ghost predicate Valid()
      reads this
    {
      Counted(Value(), maxPerIp) && RecordsOk(records, byEndpoint)
    }

    /** A random cookie for `endpoint`, if it may have one. */
    method Assign(endpoint: Endpoint, info: CookieInfo) returns (cookie: Option<B32>)
      requires Valid()
      modifies this
      ensures Valid() && Grows(old(records), records)
      ensures (cookie, Value()) == Assigned(old(Value()), endpoint, info, maxPerIp)
      ensures records == if cookie.Some? then MarkIssued(old(records), endpoint, info.cookie) else old(records)
    {
      hide Counted, RecordsOk, Grows, MarkIssued;
      AssignedCounted(Value(), endpoint, info, maxPerIp);
      GrowsSame(records);
      if endpoint in byEndpoint {
        return None;
      }
      if endpoint.ip !in perIp {
        perIp := perIp[endpoint.ip := 0];
      }
      if perIp[endpoint.ip] < maxPerIp {
        IssueOk(records, byEndpoint, endpoint, info);
        perIp := perIp[endpoint.ip := perIp[endpoint.ip] + 1];
        byEndpoint := byEndpoint[endpoint := info];
        records := MarkIssued(records, endpoint, info.cookie);
        assert perIp == old(perIp)[endpoint.ip := CountFor(old(perIp), endpoint.ip) + 1];
        return Some(info.cookie);
      } else {
        assert perIp == old(perIp)[endpoint.ip := CountFor(old(perIp), endpoint.ip)];
        return None;
      }
    }

    /** One cookie less for `ip`.  The node would panic at a count of zero; no caller gets there. */
    method DecCookieCount(ip: Ip)
      requires CountFor(perIp, ip) > 0
      modifies `perIp
      ensures perIp == old(perIp)[ip := CountFor(old(perIp), ip) - 1]
    {
      perIp := perIp[ip := perIp[ip] - 1];
    }

    /** Removes the cookie of `endpoint` and returns it. */
    method Cookie(endpoint: Endpoint) returns (cookie: Option<B32>)
      requires Valid()
      modifies `byEndpoint, `perIp, `records
      ensures Valid() && Grows(old(records), records)
      ensures endpoint !in byEndpoint && records == MarkTaken(old(records), endpoint)
      ensures cookie == if endpoint in old(byEndpoint) then Some(old(byEndpoint)[endpoint].cookie) else None
      ensures Value() == if cookie.Some? then Removed(old(Value()), endpoint) else old(Value())
    {
      hide Counted, RecordsOk, Grows;
      TakeOk(records, byEndpoint, endpoint);
      RecordsKeys(records, byEndpoint);
      records := MarkTaken(records, endpoint);
      if endpoint !in byEndpoint {
        return None;
      }
      RemovedCounted(Value(), endpoint, maxPerIp);
      cookie := Some(byEndpoint[endpoint].cookie);
      byEndpoint := byEndpoint - {endpoint};
      DecCookieCount(endpoint.ip);
    }

    /** Checks a signature of the cookie, which is removed if the signature is good.  Without a cookie, nothing is checked. */
    method Validate(endpoint: Endpoint, isGood: B32 -> bool) returns (ok: bool)
      requires Valid()
      modifies `byEndpoint, `perIp, `records
      ensures Valid() && Grows(old(records), records)
      ensures ok == (endpoint in old(byEndpoint) ==> isGood(old(byEndpoint)[endpoint].cookie))
      ensures Value() == if endpoint in old(byEndpoint) && ok then Removed(old(Value()), endpoint) else old(Value())
      ensures records == if ok then MarkTaken(old(records), endpoint) else old(records)
    {
      hide Counted, RecordsOk, Grows;
      TakeOk(records, byEndpoint, endpoint);
      RecordsKeys(records, byEndpoint);
      GrowsSame(records);
      if endpoint in byEndpoint {
        if !isGood(byEndpoint[endpoint].cookie) {
          return false;
        }
        RemovedCounted(Value(), endpoint, maxPerIp);
        records := MarkTaken(records, endpoint);
        byEndpoint := byEndpoint - {endpoint};
        DecCookieCount(endpoint.ip);
      }
      return true;
    }

    /** Removes one cookie because of its age. */
    method Forget(endpoint: Endpoint)
      requires Valid() && endpoint in byEndpoint
      modifies `byEndpoint, `perIp, `records
      ensures Valid() && Grows(old(records), records) && records.taken == old(records).taken
      ensures byEndpoint == old(byEndpoint) - {endpoint}
    {
      hide Counted, RecordsOk, Grows;
      RemovedCounted(Value(), endpoint, maxPerIp);
      TakeOk(records, byEndpoint, endpoint);
      records := MarkDropped(records, endpoint);
      byEndpoint := byEndpoint - {endpoint};
      DecCookieCount(endpoint.ip);
    }

    /** Removes the cookies that are older than `cutoff`, and only those. */
    method Purge(now: nat, cutoff: nat)
      requires Valid()
      modifies `byEndpoint, `perIp, `records
      ensures Valid() && Grows(old(records), records) && records.taken == old(records).taken
      ensures byEndpoint == map e | e in old(byEndpoint) && now - old(byEndpoint)[e].createdAt <= cutoff :: old(byEndpoint)[e]
    {
      hide Counted, RecordsOk, Grows;
      GrowsSame(records);
      var removed := set e | e in byEndpoint && now - byEndpoint[e].createdAt > cutoff;
      ghost var all := removed;
      MinusNone(byEndpoint, all);
      while removed != {}
        invariant removed <= all && removed <= byEndpoint.Keys
        invariant byEndpoint == Minus(old(byEndpoint), all, removed)
        invariant Valid() && Grows(old(records), records) && records.taken == old(records).taken
        decreases |removed|
      {
        var endpoint :| endpoint in removed;
        ghost var before := records;
        Forget(endpoint);
        GrowsConcat(old(records), before, records);
        MinusOne(old(byEndpoint), all, removed, endpoint);
        removed := removed - {endpoint};
      }
      MinusAll(old(byEndpoint), all, now, cutoff);
    }
  }

  /** `m` without the endpoints that are in `all` but not in `rest`. */
  ghost function Minus(m: map<Endpoint, CookieInfo>, all: set<Endpoint>, rest: set<Endpoint>): map<Endpoint, CookieInfo> {
    m - (all - rest)
  }

  lemma MinusNone(m: map<Endpoint, CookieInfo>, all: set<Endpoint>)
    ensures Minus(m, all, all) == m
  {
  }

  lemma MinusOne(m: map<Endpoint, CookieInfo>, all: set<Endpoint>, rest: set<Endpoint>, e: Endpoint)
    requires e in rest && rest <= all
    ensures Minus(m, all, rest) - {e} == Minus(m, all, rest - {e})
  {
    assert all - (rest - {e}) == (all - rest) + {e};
  }

  lemma MinusAll(m: map<Endpoint, CookieInfo>, all: set<Endpoint>, now: nat, cutoff: nat)
    requires all == set e | e in m && now - m[e].createdAt > cutoff
    ensures Minus(m, all, {}) == map e | e in m && now - m[e].createdAt <= cutoff :: m[e]
  {
    assert all - {} == all;
  }

  lemma GrowsSame(l: Records)
    ensures Grows(l, l)
  {
  }

  lemma GrowsConcat(l0: Records, l1: Records, l2: Records)
    requires Grows(l0, l1) && Grows(l1, l2)
    ensures Grows(l0, l2)
  {
  }

  lemma RecordsKeys(l: Records, byEndpoint: map<Endpoint, CookieInfo>)
    requires RecordsOk(l, byEndpoint)
    ensures l.live.Keys == byEndpoint.Keys
  {
  }

  /** A cookie that was taken is not in the table any more. */
  lemma TakenIsGone(l: Records, byEndpoint: map<Endpoint, CookieInfo>, n: nat)
    requires RecordsOk(l, byEndpoint) && n in l.taken
    ensures n in l.issued && n !in l.dropped && forall e | e in l.live :: l.live[e] != n
  {
  }
}
