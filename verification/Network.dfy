/** The channels of a node: which connections are admitted, and when channels are closed and removed. */
module Network {
  import opened Wrappers
  import opened Clock
  import opened Bytes
  import opened Addresses
  import opened Buckets
  import opened Attempts
  import opened ChannelMode
  import opened PeerExclusion

  datatype Channel = Channel(
    peer: Endpoint, direction: Direction, peering: Option<Endpoint>, nodeId: Option<B32>, mode: Mode,
    version: nat, lastActivity: int, alive: bool)

  /** Activity is recorded in whole milliseconds. */
  function WholeMillis(now: int): int {
    if now >= 0 then now - now % 1_000_000 else -(-now - -now % 1_000_000)
  }

  function NewChannel(peer: Endpoint, direction: Direction, version: nat, now: int): Channel {
    Channel(peer, direction, if direction == Outbound then Some(peer) else None, None, Undefined, version,
            WholeMillis(now), true)
  }

  /** The limits, and which endpoints can be no peers. */
  datatype Config = Config(maxInbound: nat, maxOutbound: nat, maxPerIp: nat, maxPerSubnetwork: nat, versionMin: nat,
    notAPeer: Endpoint -> bool)

  function MaxConnections(config: Config, direction: Direction): nat {
    if direction == Inbound then config.maxInbound else config.maxOutbound
  }

  type Channels = map<nat, Channel>

  function LiveByDirection(channels: Channels, direction: Direction): set<nat> {
    set id | id in channels && channels[id].alive && channels[id].direction == direction
  }

  function LiveByGroup(channels: Channels, ip: Ip): set<nat> {
    set id | id in channels && channels[id].alive && Group(channels[id].peer.ip) == ip
  }

  function LiveBySubnetwork(channels: Channels, subnet: Ip): set<nat> {
    set id | id in channels && channels[id].alive && Subnetwork(channels[id].peer.ip) == subnet
  }

  predicate IsConnected(channels: Channels, peer: Endpoint) {
    exists id | id in channels :: channels[id].alive && (channels[id].peer == peer || channels[id].peering == Some(peer))
  }

  // ---- The limits ----

  ghost predicate DirectionsBounded(channels: Channels, config: Config) {
    forall d :: |LiveByDirection(channels, d)| <= MaxConnections(config, d)
  }

  ghost predicate AddressesBounded(channels: Channels, config: Config) {
    forall ip: Ip | IsIpv4Mapped(ip) :: |LiveByGroup(channels, ip)| <= config.maxPerIp
  }

  ghost predicate SubnetworksBounded(channels: Channels, config: Config) {
    forall ip: Ip | !IsIpv4Mapped(ip) :: |LiveBySubnetwork(channels, Subnetwork(ip))| <= config.maxPerSubnetwork
  }

  ghost predicate OutboundDistinct(channels: Channels) {
    forall a, b | a in LiveByDirection(channels, Outbound) && b in LiveByDirection(channels, Outbound) && a != b ::
      channels[a].peer != channels[b].peer
  }

  /** Live channels per direction, per IPv4 address and per IPv6 subnetwork are within their limits, and no two live
      outbound channels lead to the same endpoint. */
  ghost predicate Bounded(channels: Channels, config: Config) {
    && DirectionsBounded(channels, config)
    && AddressesBounded(channels, config)
    && SubnetworksBounded(channels, config)
    && OutboundDistinct(channels)
  }

  /** No channel came to life, and none changed its peer or direction. */
  ghost predicate Fewer(channels: Channels, before: Channels) {
    forall id | id in channels && channels[id].alive ::
      && id in before && before[id].alive
      && channels[id].peer == before[id].peer && channels[id].direction == before[id].direction
  }

  lemma SubsetCount<T>(a: set<T>, b: set<T>)
    requires a <= b
    ensures |a| <= |b|
  {
    assert b == a + (b - a);
  }

  lemma FewerBounded(channels: Channels, before: Channels, config: Config)
    requires Fewer(channels, before) && Bounded(before, config)
    ensures Bounded(channels, config)
  {
    forall d ensures |LiveByDirection(channels, d)| <= MaxConnections(config, d) {
      SubsetCount(LiveByDirection(channels, d), LiveByDirection(before, d));
    }
    forall ip: Ip | IsIpv4Mapped(ip) ensures |LiveByGroup(channels, ip)| <= config.maxPerIp {
      SubsetCount(LiveByGroup(channels, ip), LiveByGroup(before, ip));
    }
    forall ip: Ip | !IsIpv4Mapped(ip) ensures |LiveBySubnetwork(channels, Subnetwork(ip))| <= config.maxPerSubnetwork {
      SubsetCount(LiveBySubnetwork(channels, Subnetwork(ip)), LiveBySubnetwork(before, Subnetwork(ip)));
    }
    forall a, b | a in LiveByDirection(channels, Outbound) && b in LiveByDirection(channels, Outbound) && a != b
      ensures channels[a].peer != channels[b].peer
    {
      assert a in LiveByDirection(before, Outbound) && b in LiveByDirection(before, Outbound);
    }
  }

  /** A new channel that passes the checks keeps the limits. */
  lemma AddedBounded(channels: Channels, config: Config, id: nat, c: Channel)
    requires Bounded(channels, config) && id !in channels
    requires |LiveByDirection(channels, c.direction)| < MaxConnections(config, c.direction)
    requires |LiveByGroup(channels, c.peer.ip)| < config.maxPerIp
    requires !IsIpv4Mapped(c.peer.ip) ==> |LiveBySubnetwork(channels, Subnetwork(c.peer.ip))| < config.maxPerSubnetwork
    requires c.direction == Outbound ==> !IsConnected(channels, c.peer)
    ensures Bounded(channels[id := c], config)
  {
    hide IsIpv4Mapped, FirstOfNetwork;
    AddedDirections(channels, config, id, c);
    AddedAddresses(channels, config, id, c);
    AddedSubnetworks(channels, config, id, c);
    AddedDistinct(channels, id, c);
  }

  lemma AddedDirections(channels: Channels, config: Config, id: nat, c: Channel)
    requires DirectionsBounded(channels, config) && id !in channels
    requires |LiveByDirection(channels, c.direction)| < MaxConnections(config, c.direction)
    ensures DirectionsBounded(channels[id := c], config)
  {
    forall d ensures |LiveByDirection(channels[id := c], d)| <= MaxConnections(config, d) {
      assert LiveByDirection(channels[id := c], d) <= LiveByDirection(channels, d) + if d == c.direction then {id} else {};
      SubsetCount(LiveByDirection(channels[id := c], d), LiveByDirection(channels, d) + if d == c.direction then {id} else {});
    }
  }

  lemma AddedAddresses(channels: Channels, config: Config, id: nat, c: Channel)
    requires AddressesBounded(channels, config) && id !in channels
    requires |LiveByGroup(channels, c.peer.ip)| < config.maxPerIp
    ensures AddressesBounded(channels[id := c], config)
  {
    forall ip: Ip | IsIpv4Mapped(ip) ensures |LiveByGroup(channels[id := c], ip)| <= config.maxPerIp {
      if ip == c.peer.ip {
        SubsetCount(LiveByGroup(channels[id := c], ip), LiveByGroup(channels, ip) + {id});
      } else {
        NetworksApart(c.peer.ip, 6);
        SubsetCount(LiveByGroup(channels[id := c], ip), LiveByGroup(channels, ip));
      }
    }
  }

  lemma AddedSubnetworks(channels: Channels, config: Config, id: nat, c: Channel)
    requires SubnetworksBounded(channels, config) && id !in channels
    requires !IsIpv4Mapped(c.peer.ip) ==> |LiveBySubnetwork(channels, Subnetwork(c.peer.ip))| < config.maxPerSubnetwork
    ensures SubnetworksBounded(channels[id := c], config)
  {
    forall ip: Ip | !IsIpv4Mapped(ip)
      ensures |LiveBySubnetwork(channels[id := c], Subnetwork(ip))| <= config.maxPerSubnetwork
    {
      var subnet := Subnetwork(ip);
      if Subnetwork(c.peer.ip) == subnet && !IsIpv4Mapped(c.peer.ip) {
        SubsetCount(LiveBySubnetwork(channels[id := c], subnet), LiveBySubnetwork(channels, subnet) + {id});
      } else {
        if IsIpv4Mapped(c.peer.ip) {
          Ipv4SubnetworkIsMapped(c.peer.ip);
          NetworksApart(ip, 4);
        }
        SubsetCount(LiveBySubnetwork(channels[id := c], subnet), LiveBySubnetwork(channels, subnet));
      }
    }
  }

  lemma AddedDistinct(channels: Channels, id: nat, c: Channel)
    requires OutboundDistinct(channels) && id !in channels
    requires c.direction == Outbound ==> !IsConnected(channels, c.peer)
    ensures OutboundDistinct(channels[id := c])
  {
  }

  // ---- The container ----

  datatype NetworkError = TooManyConnections | TooManyPerSubnetwork | TooManyPerIp | PeerExcluded | InvalidIp | Duplicate

  /** The order in which the causes are looked at. */
  function Order(e: NetworkError): nat {
    match e
    case TooManyConnections => 0
    case PeerExcluded => 1
    case TooManyPerIp => 2
    case TooManyPerSubnetwork => 3
    case InvalidIp => 4
    case Duplicate => 5
  }

  /** What a decision about a new connection depends on. */
  datatype View = View(channels: Channels, attempts: map<Endpoint, Entry>, excluded: map<Ip, Peer>, bans: set<Endpoint>)

  ghost predicate Refuses(v: View, config: Config, e: NetworkError, peer: Endpoint, direction: Direction, now: int) {
    match e
    case TooManyConnections => |LiveByDirection(v.channels, direction)| >= MaxConnections(config, direction)
    case PeerExcluded => peer in v.bans || (peer.ip in v.excluded && IsExcluded(v.excluded[peer.ip], now))
    case TooManyPerIp =>
      |LiveByGroup(v.channels, peer.ip)| + |InGroup(v.attempts, peer.ip)| >= config.maxPerIp
    case TooManyPerSubnetwork =>
      var subnet := Subnetwork(peer.ip);
      && !IsIpv4Mapped(peer.ip)
      && |LiveBySubnetwork(v.channels, subnet)| + |InSubnetwork(v.attempts, subnet)| >= config.maxPerSubnetwork
    case InvalidIp => config.notAPeer(peer)
    case Duplicate => direction == Outbound && IsConnected(v.channels, peer)
  }

  /** `cause` is the first one against a connection, looking at the causes from `start` on. */
  ghost predicate FirstCause(v: View, config: Config, start: nat, cause: Option<NetworkError>, peer: Endpoint,
                             direction: Direction, now: int)
  {
    && (cause.Some? ==> start <= Order(cause.value) && Refuses(v, config, cause.value, peer, direction, now))
    && forall e | start <= Order(e) && (cause.None? || Order(e) < Order(cause.value)) ::
      !Refuses(v, config, e, peer, direction, now)
  }

  lemma FirstCauseLast(v: View, w: View, config: Config, cause: Option<NetworkError>, peer: Endpoint, direction: Direction, now: int)
    requires |LiveByDirection(v.channels, direction)| < MaxConnections(config, direction)
    requires !(peer in v.bans || (peer.ip in v.excluded && IsExcluded(v.excluded[peer.ip], now)))
    requires v.channels == w.channels && v.attempts == w.attempts && FirstCause(w, config, 2, cause, peer, direction, now)
    ensures FirstCause(v, config, 0, cause, peer, direction, now)
  {
    hide IsExcluded, LiveByDirection, LiveByGroup, LiveBySubnetwork, IsConnected, InGroup, InSubnetwork, Subnetwork;
    assert !Refuses(v, config, TooManyConnections, peer, direction, now);
    assert !Refuses(v, config, PeerExcluded, peer, direction, now);
    forall e | 2 <= Order(e) ensures Refuses(v, config, e, peer, direction, now) <==> Refuses(w, config, e, peer, direction, now) {
    }
  }

  lemma FirstCauseEarly(v: View, config: Config, peer: Endpoint, direction: Direction, now: int)
    ensures |LiveByDirection(v.channels, direction)| >= MaxConnections(config, direction) ==>
      FirstCause(v, config, 0, Some(TooManyConnections), peer, direction, now)
    ensures
      (|LiveByDirection(v.channels, direction)| < MaxConnections(config, direction)
       && (peer in v.bans || (peer.ip in v.excluded && IsExcluded(v.excluded[peer.ip], now)))) ==>
      FirstCause(v, config, 0, Some(PeerExcluded), peer, direction, now)
  {
  }

  lemma AdmittedFits(v: View, config: Config, id: nat, c: Channel, now: int)
    requires Bounded(v.channels, config) && id !in v.channels
    requires FirstCause(v, config, 0, None, c.peer, c.direction, now)
    ensures Bounded(v.channels[id := c], config)
  {
    hide Bounded, LiveByDirection, LiveByGroup, LiveBySubnetwork, IsConnected;
    assert !Refuses(v, config, TooManyConnections, c.peer, c.direction, now);
    assert !Refuses(v, config, TooManyPerIp, c.peer, c.direction, now);
    assert !Refuses(v, config, TooManyPerSubnetwork, c.peer, c.direction, now);
    assert !Refuses(v, config, Duplicate, c.peer, c.direction, now);
    AddedBounded(v.channels, config, id, c);
  }

  // ---- What the limit per address covers ----

  /** The check counts the channels whose group is the plain address of the peer: the whole group of the peer if its address
      stands for that group, as every IPv4 address does, and no channel at all otherwise. */
  lemma AddressCheckSees(channels: Channels, ip: Ip)
    ensures LiveByGroup(channels, ip) == if Group(ip) == ip then LiveByGroup(channels, Group(ip)) else {}
    ensures IsIpv4Mapped(ip) ==> Group(ip) == ip
  {
  }

  /** Exactly when an admitted channel keeps its group within the limit per address. */
  lemma GroupLimit(v: View, config: Config, id: nat, c: Channel, now: int)
    requires id !in v.channels && c.alive && FirstCause(v, config, 0, None, c.peer, c.direction, now)
    ensures |LiveByGroup(v.channels[id := c], Group(c.peer.ip))| <= config.maxPerIp
      <==> Group(c.peer.ip) == c.peer.ip || |LiveByGroup(v.channels, Group(c.peer.ip))| < config.maxPerIp
  {
    hide Group, Subnetwork, IsIpv4Mapped, LiveByDirection, LiveBySubnetwork, IsExcluded, IsConnected;
    var g := Group(c.peer.ip);
    assert LiveByGroup(v.channels[id := c], g) == LiveByGroup(v.channels, g) + {id};
    assert !Refuses(v, config, TooManyPerIp, c.peer, c.direction, now);
  }

  function Failure<T>(r: Result<T, NetworkError>): Option<NetworkError> {
    if r.Err? then Some(r.error) else None
  }

  predicate Survives(c: Channel, config: Config, now: int, cutoff: nat) {
    c.alive && Elapsed(c.lastActivity, now) < cutoff && c.version >= config.versionMin
  }

  function WithClosed(channels: Channels, ids: set<nat>): Channels {
    map id | id in channels :: if id in ids then channels[id].(alive := false) else channels[id]
  }

  /** Closing the idle channels, then the outdated ones, and removing what is not alive leaves exactly the survivors. */
  lemma PurgedChannels(channels: Channels, config: Config, now: int, cutoff: nat)
    ensures var idle := WithClosed(channels, set id | id in channels && Elapsed(channels[id].lastActivity, now) >= cutoff);
      var closed := WithClosed(idle, set id | id in idle && idle[id].version < config.versionMin);
      var dead := set id | id in closed && !closed[id].alive;
      && dead == (set id | id in channels && !Survives(channels[id], config, now, cutoff))
      && closed - dead == channels - dead
  {
    hide Elapsed;
  }

  class Network {
    var nextChannelId: nat
    var channels: Channels
    var stopped: bool
    const config: Config
    const attempts: AttemptContainer
    const excluded: PeerExclusion

    /** Every id ever given to a channel. */
    ghost var issued: set<nat>

    ghost predicate Valid()
      reads this, attempts, excluded
    {
      && attempts.Valid() && excluded.Valid()
      && Bounded(channels, config)
      && channels.Keys <= issued
      && forall id | id in issued :: id < nextChannelId
    }

    constructor (config: Config)
      ensures Valid() && fresh(attempts) && fresh(excluded)
      ensures channels == map[] && issued == {} && this.config == config && !stopped
      ensures attempts.byEndpoint == map[] && excluded.byIp == map[] && excluded.permaBans == {}
    {
      nextChannelId, channels, stopped, issued := 1, map[], false, {};
      this.config := config;
      attempts := new AttemptContainer();
      excluded := new PeerExclusion(5000);
    }

    ghost function Value(): View
      reads this, attempts, excluded
    {
      View(channels, attempts.byEndpoint, excluded.byIp, excluded.permaBans)
    }

    /** The checks after the first two. */
    method CheckPlace(peer: Endpoint, direction: Direction, ghost now: int) returns (cause: Option<NetworkError>)
      requires attempts.Valid()
      ensures FirstCause(Value(), config, 2, cause, peer, direction, now)
    {
      hide AttemptContainer.Valid, Group, Subnetwork, IsConnected, LiveByGroup, LiveBySubnetwork, InGroup, InSubnetwork;
      var inGroup := |LiveByGroup(channels, peer.ip)|;
      if inGroup >= config.maxPerIp {
        return Some(TooManyPerIp);
      }
      var byAddress := attempts.CountByAddress(peer.ip);
      if inGroup + byAddress >= config.maxPerIp {
        return Some(TooManyPerIp);
      }
      var subnet := Subnetwork(peer.ip);
      var bySubnetwork := attempts.CountBySubnetwork(subnet);
      if !IsIpv4Mapped(peer.ip) && |LiveBySubnetwork(channels, subnet)| + bySubnetwork >= config.maxPerSubnetwork {
        return Some(TooManyPerSubnetwork);
      }
      if config.notAPeer(peer) {
        return Some(InvalidIp);
      }
      if direction == Outbound && IsConnected(channels, peer) {
        return Some(Duplicate);
      }
      cause := None;
    }

    /** A connection is refused for the first cause there is, and only if there is one. */
    method ValidateNewConnection(peer: Endpoint, direction: Direction, now: int) returns (r: Result<(), NetworkError>)
      requires Valid()
      modifies excluded
      ensures Valid() && excluded.permaBans == old(excluded.permaBans) && excluded.byIp.Keys <= old(excluded.byIp).Keys
      ensures FirstCause(old(Value()), config, 0, Failure(r), peer, direction, now)
    {
      hide Bounded, Indexes, IsExcluded, HasExpired, LiveByDirection, FirstCause;
      ghost var before := Value();
      FirstCauseEarly(before, config, peer, direction, now);
      if |LiveByDirection(channels, direction)| >= MaxConnections(config, direction) {
        return Err(TooManyConnections);
      }
      var isExcluded := excluded.CheckExcluded(peer, now);
      if isExcluded {
        return Err(PeerExcluded);
      }
      var cause := CheckPlace(peer, direction, now);
      FirstCauseLast(before, Value(), config, cause, peer, direction, now);
      r := if cause.Some? then Err(cause.value) else Ok(());
    }

    /** The attempt is tracked if the connection may be opened, and not tracked if it may not. */
    method AddOutboundAttempt(peer: Endpoint, now: int) returns (r: Result<(), NetworkError>)
      requires Valid()
      modifies attempts, excluded
      ensures Valid() && excluded.permaBans == old(excluded.permaBans)
      ensures var tracked := old(attempts.byEndpoint)[peer := if peer in old(attempts.byEndpoint)
                then old(attempts.byEndpoint)[peer] else NewEntry(peer, Outbound, now)];
              && attempts.byEndpoint == (if r.Ok? then tracked else old(attempts.byEndpoint) - {peer})
              && FirstCause(old(Value()).(attempts := tracked), config, 0, Failure(r), peer, Outbound, now)
    {
      hide Bounded, Indexes, FirstCause, PeerExclusion.Valid;
      ghost var before := attempts.byEndpoint;
      var _ := attempts.Insert(peer, Outbound, now);
      assert attempts.byEndpoint == before[peer := if peer in before then before[peer] else NewEntry(peer, Outbound, now)];
      r := ValidateNewConnection(peer, Outbound, now);
      if r.Err? {
        attempts.Remove(peer);
        assert attempts.byEndpoint == before - {peer};
      }
    }

    /** A connection that passes the checks becomes a channel with a new id. */
    method AddNewChannel(peer: Endpoint, direction: Direction, now: int) returns (r: Result<nat, NetworkError>)
      requires Valid()
      modifies this, excluded
      ensures Valid() && excluded.permaBans == old(excluded.permaBans) && excluded.byIp.Keys <= old(excluded.byIp).Keys
      ensures FirstCause(old(Value()), config, 0, Failure(r), peer, direction, now)
      ensures r.Err? ==> channels == old(channels) && issued == old(issued)
      ensures r.Ok? ==> r.value !in old(issued) && issued == old(issued) + {r.value}
      ensures r.Ok? ==> channels == old(channels)[r.value := NewChannel(peer, direction, config.versionMin, now)]
      ensures stopped == old(stopped)
    {
      hide Bounded, Indexes, FirstCause, PeerExclusion.Valid;
      var valid := ValidateNewConnection(peer, direction, now);
      if valid.Err? {
        return Err(valid.error);
      }
      var id := nextChannelId;
      nextChannelId := nextChannelId + 1;
      var channel := NewChannel(peer, direction, config.versionMin, now);
      AdmittedFits(old(Value()), config, id, channel, now);
      channels := channels[id := channel];
      issued := issued + {id};
      r := Ok(id);
    }

    method Remove(id: nat)
      requires Valid()
      modifies this`channels
      ensures Valid() && channels == old(channels) - {id}
    {
      hide Bounded, Indexes;
      FewerBounded(channels - {id}, channels, config);
      channels := channels - {id};
    }

    /** What the rest of the node does with a channel that it holds: nothing brings a closed channel back. */
    method Touch(id: nat, channel: Channel)
      requires Valid() && id in channels
      requires channel.peer == channels[id].peer && channel.direction == channels[id].direction
      requires channel.alive ==> channels[id].alive
      modifies this`channels
      ensures Valid() && channels == old(channels)[id := channel]
    {
      hide Bounded, Indexes;
      FewerBounded(channels[id := channel], channels, config);
      channels := channels[id := channel];
    }

    method Close(ids: set<nat>)
      requires Valid()
      modifies this`channels
      ensures Valid() && channels == WithClosed(old(channels), ids)
    {
      hide Bounded, Indexes;
      var rest := ids * channels.Keys;
      while rest != {}
        invariant Valid() && rest <= ids && rest <= channels.Keys && channels == WithClosed(old(channels), ids - rest)
        decreases rest
      {
        var id :| id in rest;
        Touch(id, channels[id].(alive := false));
        rest := rest - {id};
      }
    }

    method RemoveDeadChannels() returns (removed: set<nat>)
      requires Valid()
      modifies this`channels
      ensures Valid() && removed == (set id | id in old(channels) && !old(channels)[id].alive)
      ensures channels == old(channels) - removed
    {
      hide Bounded, Indexes;
      removed := set id | id in channels && !channels[id].alive;
      var rest := removed;
      while rest != {}
        invariant Valid() && rest <= removed && channels == old(channels) - (removed - rest)
        decreases rest
      {
        var id :| id in rest;
        Remove(id);
        rest := rest - {id};
      }
    }

    /** Closes idle channels and those with an old version, and removes what is closed. */
    method PurgeChannels(now: int, cutoff: nat) returns (removed: set<nat>)
      requires Valid()
      modifies this`channels
      ensures Valid()
      ensures removed == (set id | id in old(channels) && !Survives(old(channels)[id], config, now, cutoff))
      ensures channels == old(channels) - removed
    {
      hide Bounded, Indexes, Elapsed, WithClosed, Survives;
      PurgedChannels(channels, config, now, cutoff);
      Close(set id | id in channels && Elapsed(channels[id].lastActivity, now) >= cutoff);
      Close(set id | id in channels && channels[id].version < config.versionMin);
      removed := RemoveDeadChannels();
    }

    /** Purges the channels, and forgets old attempts. */
    method Purge(now: int, cutoff: nat) returns (removed: set<nat>)
      requires Valid()
      modifies this`channels, attempts
      ensures Valid()
      ensures removed == (set id | id in old(channels) && !Survives(old(channels)[id], config, now, cutoff))
      ensures channels == old(channels) - removed
      ensures forall e ::
        e in attempts.byEndpoint <==> e in old(attempts.byEndpoint) && !Overdue(old(attempts.byEndpoint), e, now, cutoff)
      ensures forall e | e in attempts.byEndpoint :: attempts.byEndpoint[e] == old(attempts.byEndpoint)[e]
    {
      hide Bounded, Indexes, Overdue;
      removed := PurgeChannels(now, cutoff);
      attempts.Purge(now, cutoff);
    }

    /** The peer of a channel is excluded and the channel closed. */
    method ChannelMisbehaved(id: nat, now: int)
      requires Valid()
      modifies this`channels, excluded
      ensures Valid() && excluded.permaBans == old(excluded.permaBans)
      ensures channels == WithClosed(old(channels), {id})
      ensures id !in old(channels) ==> excluded.byIp == old(excluded.byIp)
      ensures id in old(channels) ==>
        var ip := old(channels)[id].peer.ip;
        && ip in excluded.byIp
        && excluded.byIp[ip].score == 1 + (if ip in old(excluded.byIp) then old(excluded.byIp)[ip].score else 0)
    {
      hide Bounded, Indexes;
      if id in channels {
        var _ := excluded.PeerMisbehaved(channels[id].peer, now);
        Touch(id, channels[id].(alive := false));
      }
    }

    /** A channel becomes realtime unless its node id is already connected from the same address group. Which of the
        channels with that node id is looked at is open. */
    method UpgradeToRealtime(id: nat, nodeId: B32) returns (upgraded: bool)
      requires Valid()
      modifies this`channels
      ensures Valid()
      ensures upgraded ==> !stopped && id in old(channels)
      ensures channels ==
        if upgraded then old(channels)[id := old(channels)[id].(nodeId := Some(nodeId), mode := Realtime)] else old(channels)
      ensures var same := set o | o in old(channels) && old(channels)[o].alive && old(channels)[o].nodeId == Some(nodeId);
        && (upgraded && same != {} ==> exists o | o in same :: Group(old(channels)[o].peer.ip) != Group(old(channels)[id].peer.ip))
        && (!upgraded && !stopped && id in old(channels) ==>
            exists o | o in same :: Group(old(channels)[o].peer.ip) == Group(old(channels)[id].peer.ip))
    {
      hide Bounded, Indexes, Group;
      if stopped || id !in channels {
        return false;
      }
      var same := set o | o in channels && channels[o].alive && channels[o].nodeId == Some(nodeId);
      if same != {} {
        var other :| other in same;
        if Group(channels[other].peer.ip) == Group(channels[id].peer.ip) {
          return false;
        }
      }
      Touch(id, channels[id].(nodeId := Some(nodeId), mode := Realtime));
      upgraded := true;
    }

    method Stop() returns (first: bool)
      requires Valid()
      modifies this`channels, this`stopped
      ensures Valid() && stopped && first == !old(stopped)
      ensures channels == if first then map[] else old(channels)
    {
      hide Bounded, Indexes;
      if stopped {
        return false;
      }
      FewerBounded(map[], channels, config);
      channels := map[];
      stopped := true;
      first := true;
    }
  }

  // ---- The limit per address and IPv6 ----

  /** Two IPv6 addresses of one group, neither of which stands for the group. */
  lemma TwoOfOneGroup() returns (ip: Ip, ip2: Ip)
    ensures !IsIpv4Mapped(ip) && !IsIpv4Mapped(ip2) && Group(ip) == Group(ip2) && Group(ip) != ip && Group(ip2) != ip2
  {
    ip, ip2 := Zeros(16)[0 := 0x20][15 := 1], Zeros(16)[0 := 0x20][15 := 2];
    assert ip[..12][0] != 0 && ip2[..12][0] != 0 && Group(ip)[15] == 0;
    SameGroup(ip, ip2);
  }

  /** With these limits a second channel of a group is admitted as long as there is at most one channel. */
  lemma SecondAdmitted(v: View, config: Config, cause: Option<NetworkError>, peer: Endpoint, now: int)
    requires config.maxInbound == 2 && config.maxPerIp == 1 && config.maxPerSubnetwork == 2 && !config.notAPeer(peer)
    requires |v.channels| <= 1 && v.attempts == map[] && v.excluded == map[] && v.bans == {}
    requires Group(peer.ip) != peer.ip && FirstCause(v, config, 0, cause, peer, Inbound, now)
    ensures cause.None?
  {
    AddressCheckSees(v.channels, peer.ip);
    SubsetCount(LiveByDirection(v.channels, Inbound), v.channels.Keys);
    SubsetCount(LiveBySubnetwork(v.channels, Subnetwork(peer.ip)), v.channels.Keys);
    assert InGroup(v.attempts, peer.ip) == {} && InSubnetwork(v.attempts, Subnetwork(peer.ip)) == {};
  }

  /** So the limit per address does not hold for IPv6: with a limit of one, two channels of one group are admitted one after
      the other. */
  method Ipv6GroupOverLimit(ip: Ip, ip2: Ip) returns (net: Network)
    requires Group(ip) == Group(ip2) && Group(ip) != ip && Group(ip2) != ip2
    ensures net.Valid() && net.config.maxPerIp == 1 && |LiveByGroup(net.channels, Group(ip))| == 2
  {
    hide Bounded, Indexes, FirstCause, PeerExclusion.Valid, Group;
    net := new Network(Config(2, 2, 1, 2, 0, _ => false));
    ghost var v := net.Value();
    var first := net.AddNewChannel(Endpoint(ip, 1), Inbound, 0);
    SecondAdmitted(v, net.config, Failure(first), Endpoint(ip, 1), 0);
    v := net.Value();
    assert v.channels.Keys == {first.value};
    var second := net.AddNewChannel(Endpoint(ip2, 1), Inbound, 0);
    SecondAdmitted(v, net.config, Failure(second), Endpoint(ip2, 1), 0);
    assert LiveByGroup(net.channels, Group(ip)) == {first.value, second.value};
  }
}
