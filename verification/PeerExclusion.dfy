/** Misbehaving peers, kept by IP address and again by the time at which their exclusion ends. */
module PeerExclusion {
  import opened Addresses
  import opened Buckets

  /** Times are in nanoseconds. */
  datatype Peer = Peer(excludeUntil: int, address: Endpoint, score: nat)

  const SCORE_LIMIT: nat := 2
  const EXCLUDE_TIME: nat := 3_600_000_000_000
  const EXCLUDE_REMOVE: nat := 86_400_000_000_000

  /** The factor is a 32 bit number. */
  function DurationFactor(score: nat): nat {
    if score <= SCORE_LIMIT then 1 else 2 * score % 0x1_0000_0000
  }

  function ExclusionEnd(score: nat, now: int): int {
    now + EXCLUDE_TIME * DurationFactor(score)
  }

  function NewPeer(address: Endpoint, now: int): Peer {
    Peer(now + EXCLUDE_TIME, address, 1)
  }

  function Worse(p: Peer, now: int): Peer {
    p.(score := p.score + 1, excludeUntil := ExclusionEnd(p.score + 1, now))
  }

  predicate IsExcluded(p: Peer, now: int) {
    p.score >= SCORE_LIMIT && p.excludeUntil > now
  }

  predicate HasExpired(p: Peer, now: int) {
    p.excludeUntil + EXCLUDE_REMOVE * (p.score % 0x1_0000_0000) < now
  }

  // ---- The index by date ----

  function Dates(byIp: map<Ip, Peer>): map<Ip, int> {
    map ip | ip in byIp :: byIp[ip].excludeUntil
  }

  // ---- Eviction ----

  /** How many peers are dropped to make room among `n`. */
  function Excess(n: nat, max: nat): nat {
    if n <= 1 || n < max then 0 else if max <= 1 then n - 1 else n - max + 1
  }

  /** `kept` is `all` without some of the peers whose exclusion ends first. */
  ghost predicate KeepsLatest(all: map<Ip, Peer>, kept: map<Ip, Peer>) {
    && kept.Keys <= all.Keys
    && (forall ip | ip in kept :: kept[ip] == all[ip])
    && (forall gone, ip | gone in all && gone !in kept && ip in kept :: all[gone].excludeUntil <= all[ip].excludeUntil)
  }

  lemma EvictOne(all: map<Ip, Peer>, kept: map<Ip, Peer>, ip: Ip)
    requires KeepsLatest(all, kept) && ip in kept
    requires forall x | x in kept :: kept[ip].excludeUntil <= kept[x].excludeUntil
    ensures KeepsLatest(all, kept - {ip}) && |kept - {ip}| == |kept| - 1
  {
  }

  class PeerExclusion {
    var dates: map<int, seq<Ip>>
    var byIp: map<Ip, Peer>
    const maxSize: nat
    var permaBans: set<Endpoint>

    ghost predicate Valid()
      reads this
    {
      && Indexes(dates, Dates(byIp))
      && (forall ip | ip in byIp :: byIp[ip].address.ip == ip)
      && |byIp| <= if maxSize < 2 then 2 else maxSize
    }

    constructor (maxSize: nat)
      ensures Valid() && byIp == map[] && permaBans == {} && this.maxSize == maxSize
    {
      dates, byIp, permaBans := map[], map[], {};
      this.maxSize := maxSize;
    }

    /** The first entry of the ordered map, whose bucket is never empty. */
    method Pop() returns (ip: Ip)
      requires Indexes(dates, Dates(byIp)) && byIp != map[]
      modifies this`dates
      ensures ip in byIp && Indexes(dates, Dates(byIp - {ip}))
      ensures forall x | x in byIp :: byIp[ip].excludeUntil <= byIp[x].excludeUntil
    {
      ghost var keyOf := Dates(byIp);
      ghost var some := AnyOf(byIp.Keys);
      IndexesDrop(dates, keyOf, some);
      ghost var first := Least(dates.Keys);
      assert first in dates && forall d | d in dates :: first <= d;
      var date :| date in dates && forall d | d in dates :: date <= d;
      var ips := dates[date];
      WithoutLast(ips);
      ip := ips[|ips| - 1];
      assert ip in Listed(dates, date);
      forall x | x in byIp ensures date <= byIp[x].excludeUntil {
        IndexesDrop(dates, keyOf, x);
      }
      IndexesDrop(dates, keyOf, ip);
      assert Dates(byIp - {ip}) == keyOf - {ip};
      if |ips| == 1 {
        dates := dates - {date};
      } else {
        dates := dates[date := ips[..|ips| - 1]];
      }
    }

    method CleanOldPeers()
      requires Valid()
      modifies this`dates, this`byIp
      ensures Valid() && KeepsLatest(old(byIp), byIp)
      ensures |byIp| == |old(byIp)| - Excess(|old(byIp)|, maxSize)
    {
      while |byIp| > 1 && |byIp| >= maxSize
        invariant Valid() && KeepsLatest(old(byIp), byIp)
        invariant |byIp| - Excess(|byIp|, maxSize) == |old(byIp)| - Excess(|old(byIp)|, maxSize)
        decreases |byIp|
      {
        var ip := Pop();
        EvictOne(old(byIp), byIp, ip);
        byIp := byIp - {ip};
      }
    }

    method Insert(peer: Peer)
      requires Valid() && peer.address.ip !in byIp && Excess(|byIp|, maxSize) == 0
      modifies this`dates, this`byIp
      ensures Valid() && byIp == old(byIp)[peer.address.ip := peer]
    {
      IndexesPush(dates, Dates(byIp), peer.excludeUntil, peer.address.ip);
      dates := Pushed(dates, peer.excludeUntil, peer.address.ip);
      assert Dates(byIp[peer.address.ip := peer]) == Dates(byIp)[peer.address.ip := peer.excludeUntil];
      assert byIp[peer.address.ip := peer].Keys == byIp.Keys + {peer.address.ip};
      byIp := byIp[peer.address.ip := peer];
    }

    /** A known peer misbehaves again, and moves to its new date. */
    method Worsen(ip: Ip, now: int) returns (score: nat)
      requires Valid() && ip in byIp
      modifies this`dates, this`byIp
      ensures Valid() && byIp == old(byIp)[ip := Worse(old(byIp)[ip], now)] && score == byIp[ip].score
    {
      var before := byIp[ip];
      var peer := Worse(before, now);
      IndexesDrop(dates, Dates(byIp), ip);
      if peer.excludeUntil != before.excludeUntil {
        var dropped := Dropped(dates, before.excludeUntil, ip);
        IndexesPush(dropped, Dates(byIp) - {ip}, peer.excludeUntil, ip);
        dates := Pushed(dropped, peer.excludeUntil, ip);
        assert (Dates(byIp) - {ip})[ip := peer.excludeUntil] == Dates(byIp[ip := peer]);
      } else {
        assert Dates(byIp) == Dates(byIp[ip := peer]);
      }
      assert byIp[ip := peer].Keys == byIp.Keys;
      byIp := byIp[ip := peer];
      score := peer.score;
    }

    /** The new score. A known peer is excluded for longer; a new one may push out the peers that are due first. */
    method PeerMisbehaved(endpoint: Endpoint, now: int) returns (score: nat)
      requires Valid()
      modifies this`dates, this`byIp
      ensures Valid() && endpoint.ip in byIp && score == byIp[endpoint.ip].score
      ensures endpoint.ip in old(byIp) ==> byIp == old(byIp)[endpoint.ip := Worse(old(byIp)[endpoint.ip], now)]
      ensures endpoint.ip !in old(byIp) ==>
        && byIp[endpoint.ip] == NewPeer(endpoint, now)
        && KeepsLatest(old(byIp), byIp - {endpoint.ip})
        && |byIp| == |old(byIp)| - Excess(|old(byIp)|, maxSize) + 1
    {
      var ip := endpoint.ip;
      if ip in byIp {
        score := Worsen(ip, now);
      } else {
        CleanOldPeers();
        var peer := NewPeer(endpoint, now);
        ghost var kept := byIp;
        Insert(peer);
        assert byIp - {ip} == kept && byIp.Keys == kept.Keys + {ip};
        score := peer.score;
      }
    }

    method PermaBan(address: Endpoint)
      modifies this`permaBans
      ensures permaBans == old(permaBans) + {address}
    {
      permaBans := permaBans + {address};
    }

    method Remove(endpoint: Endpoint)
      requires Valid()
      modifies this`dates, this`byIp
      ensures Valid() && byIp == old(byIp) - {endpoint.ip}
    {
      if endpoint.ip in byIp {
        var item := byIp[endpoint.ip];
        IndexesDrop(dates, Dates(byIp), endpoint.ip);
        assert Dates(byIp - {endpoint.ip}) == Dates(byIp) - {endpoint.ip};
        assert (byIp - {endpoint.ip}).Keys == byIp.Keys - {endpoint.ip};
        byIp := byIp - {endpoint.ip};
        dates := Dropped(dates, item.excludeUntil, item.address.ip);
      }
    }

    /** The answer, which forgets an expired peer on the way. */
    method CheckExcluded(address: Endpoint, now: int) returns (excluded: bool)
      requires Valid()
      modifies this`dates, this`byIp
      ensures Valid()
      ensures excluded <==> address in permaBans || (address.ip in old(byIp) && IsExcluded(old(byIp)[address.ip], now))
      ensures byIp == if address !in permaBans && address.ip in old(byIp) && HasExpired(old(byIp)[address.ip], now)
        then old(byIp) - {address.ip} else old(byIp)
    {
      if address in permaBans {
        return true;
      }
      if address.ip in byIp {
        var peer := byIp[address.ip];
        if HasExpired(peer, now) {
          Remove(peer.address);
        }
        return IsExcluded(peer, now);
      }
      return false;
    }
  }

  /** A forgotten peer would not be excluded any more, so forgetting it changes no answer until it misbehaves again.  Then it
      does: it starts again with the first offence, which makes no difference exactly after the end of the exclusion that a
      remembered peer would have got. */
  lemma ForgettingMatters(p: Peer, now: int, later: int, offence: int, time: int)
    requires HasExpired(p, now) && now <= later && p.score >= 1
    ensures !IsExcluded(p, later)
    ensures IsExcluded(NewPeer(p.address, offence), time) == IsExcluded(Worse(p, offence), time)
      <==> time >= ExclusionEnd(p.score + 1, offence)
  {
  }

  /** The ladder: the first offence excludes nobody, the second for one hour, and the n-th for 2n hours. */
  lemma ExcludedSpan(p: Peer, now: int, time: int)
    requires 1 <= p.score < 0x7fff_ffff
    ensures !IsExcluded(NewPeer(p.address, now), time)
    ensures var hours := if p.score == 1 then 1 else 2 * (p.score + 1);
      IsExcluded(Worse(p, now), time) <==> time < now + hours * 3_600_000_000_000
  {
  }

  /** Misbehaving again shortens an exclusion if and only if the new score is a multiple of 2^31, where the factor of the
      duration wraps around. */
  lemma ExclusionEndGrows(score: nat, now: int, later: int)
    requires now <= later
    ensures ExclusionEnd(score, now) <= ExclusionEnd(score + 1, now) <==> (score + 1) % 0x8000_0000 != 0
    ensures (score + 1) % 0x8000_0000 != 0 ==> ExclusionEnd(score, now) <= ExclusionEnd(score + 1, later)
  {
    var k, m := (score + 1) / 0x8000_0000, (score + 1) % 0x8000_0000;
    assert score + 1 == k * 0x8000_0000 + m;
    Wraps(score + 1, k, m);
    if m > 0 {
      Wraps(score, k, m - 1);
    } else {
      Wraps(score, k - 1, 0x7fff_ffff);
    }
  }

  lemma Wraps(score: nat, k: int, m: nat)
    requires score == k * 0x8000_0000 + m && m < 0x8000_0000
    ensures 2 * score % 0x1_0000_0000 == 2 * m
  {
    assert 2 * score == k * 0x1_0000_0000 + 2 * m;
  }
}
