/** Two honest nodes over a reliable channel, with their networks: whatever the order in which messages are sent, delivered
    and polled, both sides reach realtime. */
module HonestNodes {
  import opened Wrappers
  import opened Bytes
  import opened Codec
  import opened Addresses
  import opened ChannelMode
  import opened SynCookies
  import opened HandshakeProcess
  import opened DataReceiver
  import Network

  function NodeIdOf(node: Node): B32 {
    node.crypto.nodeId(node.key)
  }

  // ---- The three messages ----

  /** A response to the cookie `signed`, with a query of its own if `own` is given. */
  ghost predicate IsReply(node: Node, signed: B32, own: Option<B32>, m: Handshake) {
    exists salt: B32 :: m == CreateResponse(node, signed, true, salt, own)
  }

  ghost predicate HasCookie(c: Cookies, peer: Endpoint, cookie: B32) {
    peer in c.byEndpoint && c.byEndpoint[peer].cookie == cookie
  }

  ghost predicate FreeSlot(c: Cookies, peer: Endpoint, max: nat) {
    peer !in c.byEndpoint && CountFor(c.perIp, peer.ip) < max
  }

  /** A query is answered with a response and a query. */
  lemma FirstReply(b: Node, side: Side, query: B32, peer: Endpoint, chance: Chance, max: nat)
    requires !side.received && FreeSlot(side.cookies, peer, max)
    ensures var (r, side') := Process(b, side, QueryMessage(query), peer, chance, max);
      && r.Ok? && r.value.nodeId.None? && r.value.reply.Some?
      && IsReply(b, query, Some(chance.cookie.cookie), r.value.reply.value)
      && side'.received && HasCookie(side'.cookies, peer, chance.cookie.cookie)
      && side'.cookies.byEndpoint - {peer} == side.cookies.byEndpoint
  {
    assert side.cookies.byEndpoint[peer := chance.cookie] - {peer} == side.cookies.byEndpoint;
    assert CreateResponse(b, query, true, chance.salt, Some(chance.cookie.cookie)) ==
      CreateResponse(b, query, true, chance.salt, Some(chance.cookie.cookie));
  }

  /** A response with a query verifies the sender and is answered with a response. */
  lemma SecondReply(a: Node, b: Node, side: Side, m: Handshake, own: B32, theirs: B32, peer: Endpoint, chance: Chance, max: nat)
    requires a.crypto == b.crypto && Sound(a.crypto) && a.genesis == b.genesis && NodeIdOf(a) != NodeIdOf(b)
    requires !side.received && HasCookie(side.cookies, peer, own) && IsReply(b, own, Some(theirs), m)
    ensures var (r, side') := Process(a, side, m, peer, chance, max);
      && r.Ok? && r.value.nodeId == Some(NodeIdOf(b)) && r.value.reply.Some?
      && IsReply(a, theirs, None, r.value.reply.value)
      && side'.received && side'.cookies.byEndpoint == side.cookies.byEndpoint - {peer}
  {
    var salt: B32 :| m == CreateResponse(b, own, true, salt, Some(theirs));
    SignedVerifies(b, own, true, salt);
    assert CreateResponse(a, theirs, true, chance.salt, None) == CreateResponse(a, theirs, true, chance.salt, None);
  }

  /** A response verifies the sender. */
  lemma LastReply(a: Node, b: Node, side: Side, m: Handshake, own: B32, peer: Endpoint, chance: Chance, max: nat)
    requires a.crypto == b.crypto && Sound(a.crypto) && a.genesis == b.genesis && NodeIdOf(a) != NodeIdOf(b)
    requires HasCookie(side.cookies, peer, own) && IsReply(a, own, None, m)
    ensures var (r, side') := Process(b, side, m, peer, chance, max);
      && r.Ok? && r.value.nodeId == Some(NodeIdOf(a)) && r.value.reply.None?
      && side'.cookies.byEndpoint == side.cookies.byEndpoint - {peer}
  {
    var salt: B32 :| m == CreateResponse(a, own, true, salt, None);
    SignedVerifies(a, own, true, salt);
  }

  // ---- The two sides and what is between them ----

  datatype Party = A | B

  datatype Event = Sends(from: Party) | Delivers(to: Party) | Polls(party: Party)

  /** No other live channel of the same address group has the node id, so that the network allows the upgrade. */
  ghost predicate Upgradable(net: Network.Network, id: nat, nodeId: B32)
    reads net, net.attempts, net.excluded
  {
    && net.Valid() && !net.stopped && id in net.channels
    && forall o | o in net.channels && net.channels[o].alive && net.channels[o].nodeId == Some(nodeId) ::
         Group(net.channels[o].peer.ip) != Group(net.channels[id].peer.ip)
  }

  /** A channel at the very beginning, with room for a cookie. */
  ghost predicate Idle(r: NanoDataReceiver)
    reads r, r.process, r.process.synCookies
  {
    && r.Safe() && r.InOrder() && r.mode == Undefined && !r.paused && !r.closed && r.queue == []
    && !r.process.handshakeReceived && FreeSlot(r.process.synCookies.Value(), r.peer, r.process.synCookies.maxPerIp)
  }

  class Pair {
    const a: NanoDataReceiver
    const b: NanoDataReceiver
    const netA: Network.Network
    const netB: Network.Network
    const idA: nat
    const idB: nat
    var toA: seq<Handshake> // on the wire
    var toB: seq<Handshake>
    ghost var phase: nat
    ghost var cookieA: B32  // what A has issued, and B
    ghost var cookieB: B32
    ghost const cookiesA: map<Endpoint, CookieInfo> // the tables before the handshake
    ghost const cookiesB: map<Endpoint, CookieInfo>

    /** A opens a channel to B and queues its query. */
    constructor (a: NanoDataReceiver, b: NanoDataReceiver, netA: Network.Network, netB: Network.Network, idA: nat, idB: nat,
                 world: World)
      requires Idle(a) && Idle(b) && world.sent
      requires a != b && a.process != b.process && a.process.synCookies != b.process.synCookies
      requires netA != netB && netA.attempts != netB.attempts && netA.excluded != netB.excluded
      requires a.process.node.crypto == b.process.node.crypto && Sound(a.process.node.crypto)
      requires a.process.node.genesis == b.process.node.genesis && NodeIdOf(a.process.node) != NodeIdOf(b.process.node)
      requires Upgradable(netA, idA, NodeIdOf(b.process.node)) && Upgradable(netB, idB, NodeIdOf(a.process.node))
      modifies a`queue, a`closed, a.process.synCookies
      ensures Valid() && Progress() == 0
      ensures this.a == a && this.b == b && this.netA == netA && this.netB == netB && this.idA == idA && this.idB == idB
      ensures cookiesA == old(a.process.synCookies.byEndpoint) && cookiesB == old(b.process.synCookies.byEndpoint)
    {
      hide Sound, Upgradable, IsReply, NanoDataReceiver.Safe, NanoDataReceiver.InOrder;
      this.a, this.b, this.netA, this.netB, this.idA, this.idB := a, b, netA, netB, idA, idB;
      toA, toB, phase, cookieA, cookieB := [], [], 0, world.chance.cookie.cookie, Zeros(32);
      cookiesA, cookiesB := a.process.synCookies.byEndpoint, b.process.synCookies.byEndpoint;
      new;
      a.EnsureHandshake(true, world);
      assert a.process.synCookies.byEndpoint - {a.peer} == cookiesA;
    }

    ghost predicate Apart() {
      && a != b && a.process != b.process && a.process.synCookies != b.process.synCookies && netA != netB
      && netA.attempts != netB.attempts && netA.excluded != netB.excluded
    }

    ghost predicate Honest() {
      && a.process.node.crypto == b.process.node.crypto && Sound(a.process.node.crypto)
      && a.process.node.genesis == b.process.node.genesis
      && NodeIdOf(a.process.node) != NodeIdOf(b.process.node)
    }

    /** Where A stands: it has sent a query, has been answered, and is upgraded. */
    ghost predicate StateA()
      reads this, a, a.process, a.process.synCookies, netA, netA.attempts, netA.excluded
    {
      && a.Safe() && a.InOrder() && !a.closed
      && (if phase < 4 then
            && a.mode == Undefined && !a.paused && !a.process.handshakeReceived
            && HasCookie(a.process.synCookies.Value(), a.peer, cookieA)
            && a.process.synCookies.byEndpoint - {a.peer} == cookiesA
          else
            && a.nodeId == NodeIdOf(b.process.node) && a.process.synCookies.byEndpoint == cookiesA
            && (if a.mode == Undefined then a.paused else phase >= 5 && !a.paused && a.channelNodeId == Some(a.nodeId)))
      && (a.mode == Undefined ==> Upgradable(netA, idA, NodeIdOf(b.process.node)))
      && (if phase == 0 then a.queue == [QueryMessage(cookieA)]
          else if phase == 4 then |a.queue| == 1 && IsReply(a.process.node, cookieB, None, a.queue[0])
          else a.queue == [])
    }

    /** Where B stands: it waits for a query, has answered it, and is answered itself. */
    ghost predicate StateB()
      reads this, b, b.process, b.process.synCookies, netB, netB.attempts, netB.excluded
    {
      && b.Safe() && b.InOrder() && !b.closed
      && (if phase < 2 then
            && b.mode == Undefined && !b.paused && !b.process.handshakeReceived
            && FreeSlot(b.process.synCookies.Value(), b.peer, b.process.synCookies.maxPerIp)
            && b.process.synCookies.byEndpoint == cookiesB
          else if phase < 6 then
            && b.mode == Undefined && !b.paused && b.process.handshakeReceived
            && HasCookie(b.process.synCookies.Value(), b.peer, cookieB)
            && b.process.synCookies.byEndpoint - {b.peer} == cookiesB
          else
            && b.nodeId == NodeIdOf(a.process.node) && b.process.synCookies.byEndpoint == cookiesB
            && (if b.mode == Undefined then b.paused else !b.paused && b.channelNodeId == Some(b.nodeId)))
      && (b.mode == Undefined ==> Upgradable(netB, idB, NodeIdOf(a.process.node)))
      && (if phase == 2 then |b.queue| == 1 && IsReply(b.process.node, cookieA, Some(cookieB), b.queue[0]) else b.queue == [])
    }

    ghost predicate Wires()
      reads this
    {
      && (if phase == 1 then toB == [QueryMessage(cookieA)]
          else if phase == 5 then |toB| == 1 && IsReply(a.process.node, cookieB, None, toB[0])
          else toB == [])
      && (if phase == 3 then |toA| == 1 && IsReply(b.process.node, cookieA, Some(cookieB), toA[0]) else toA == [])
    }

    ghost predicate Valid()
      reads this, a, a.process, a.process.synCookies, netA, netA.attempts, netA.excluded
      reads b, b.process, b.process.synCookies, netB, netB.attempts, netB.excluded
    {
      phase <= 6 && Apart() && Honest() && StateA() && StateB() && Wires()
    }

    /** How many of the eight steps have been made. */
    ghost function Progress(): nat
      reads this, a, b
    {
      phase + (if a.mode == Realtime then 1 else 0) + (if b.mode == Realtime then 1 else 0)
    }

    ghost predicate Enabled(e: Event)
      reads this, a, b
    {
      match e
      case Sends(A) => a.queue != []
      case Sends(B) => b.queue != []
      case Delivers(A) => toA != [] && !a.paused
      case Delivers(B) => toB != [] && !b.paused
      case Polls(A) => a.paused && a.queue == []
      case Polls(B) => b.paused && b.queue == []
    }

    /** As long as not both sides are realtime, there is something to do. */
    lemma NotStuck()
      requires Valid() && Progress() < 8
      ensures exists e :: Enabled(e)
    {
      hide NanoDataReceiver.Safe, NanoDataReceiver.InOrder, Upgradable, IsReply, HasCookie, FreeSlot;
      if phase == 0 || phase == 4 { assert Enabled(Sends(A)); }
      if phase == 1 || phase == 5 { assert Enabled(Delivers(B)); }
      if phase == 2 { assert Enabled(Sends(B)); }
      if phase == 3 { assert Enabled(Delivers(A)); }
      if phase == 6 && a.mode == Undefined { assert Enabled(Polls(A)); }
      if phase == 6 && b.mode == Undefined { assert Enabled(Polls(B)); }
    }

    method SendA()
      requires Valid() && Enabled(Sends(A))
      modifies this`toB, this`phase, a`queue
      ensures Valid() && Progress() == old(Progress()) + 1
    {
      hide Upgradable, IsReply, HasCookie, FreeSlot, NanoDataReceiver.Safe, NanoDataReceiver.InOrder, Sound;
      var m := a.SendOne();
      toB := toB + [m.value];
      phase := phase + 1;
    }

    method SendB()
      requires Valid() && Enabled(Sends(B))
      modifies this`toA, this`phase, b`queue
      ensures Valid() && Progress() == old(Progress()) + 1
    {
      hide Upgradable, IsReply, HasCookie, FreeSlot, NanoDataReceiver.Safe, NanoDataReceiver.InOrder, Sound;
      var m := b.SendOne();
      toA := toA + [m.value];
      phase := phase + 1;
    }

    /** The query arrives. */
    method DeliverQuery(world: World)
      requires Valid() && phase == 1 && world.sent
      modifies this`toB, this`phase, this`cookieB, b, b.process, b.process.synCookies
      ensures Valid() && Progress() == old(Progress()) + 1
    {
      hide Sound, Upgradable, IsReply, HasCookie, FreeSlot, Process, NanoDataReceiver.Safe, NanoDataReceiver.InOrder;
      FirstReply(b.process.node, b.process.Value(), cookieA, b.peer, world.chance, b.process.synCookies.maxPerIp);
      var r := b.ProcessMessage(NodeIdHandshake(toB[0]), world);
      toB, phase, cookieB := [], 2, world.chance.cookie.cookie;
    }

    /** The response with a query arrives. */
    method DeliverAnswer(world: World)
      requires Valid() && phase == 3 && world.sent
      modifies this`toA, this`phase, a, a.process, a.process.synCookies
      ensures Valid() && Progress() == old(Progress()) + 1
    {
      hide Sound, Upgradable, IsReply, HasCookie, FreeSlot, Process, NanoDataReceiver.Safe, NanoDataReceiver.InOrder;
      SecondReply(a.process.node, b.process.node, a.process.Value(), toA[0], cookieA, cookieB, a.peer, world.chance,
                  a.process.synCookies.maxPerIp);
      var r := a.ProcessMessage(NodeIdHandshake(toA[0]), world);
      toA, phase := [], 4;
    }

    /** The last response arrives. */
    method DeliverLast(world: World)
      requires Valid() && phase == 5 && world.sent
      modifies this`toB, this`phase, b, b.process, b.process.synCookies
      ensures Valid() && Progress() == old(Progress()) + 1
    {
      hide Sound, Upgradable, IsReply, HasCookie, FreeSlot, Process, NanoDataReceiver.Safe, NanoDataReceiver.InOrder;
      LastReply(a.process.node, b.process.node, b.process.Value(), toB[0], cookieB, b.peer, world.chance,
                b.process.synCookies.maxPerIp);
      var r := b.ProcessMessage(NodeIdHandshake(toB[0]), world);
      toB, phase := [], 6;
    }

    method PollA(world: World)
      requires Valid() && Enabled(Polls(A))
      modifies a, netA`channels
      ensures Valid() && Progress() == old(Progress()) + 1
    {
      hide Sound, IsReply, HasCookie, FreeSlot, NanoDataReceiver.Safe, NanoDataReceiver.InOrder, Network.Network.Valid, Group;
      var upgraded := netA.UpgradeToRealtime(idA, a.nodeId);
      var r := a.TryUnpause(world.(upgraded := upgraded));
    }

    method PollB(world: World)
      requires Valid() && Enabled(Polls(B))
      modifies b, netB`channels
      ensures Valid() && Progress() == old(Progress()) + 1
    {
      hide Sound, IsReply, HasCookie, FreeSlot, NanoDataReceiver.Safe, NanoDataReceiver.InOrder, Network.Network.Valid, Group;
      var upgraded := netB.UpgradeToRealtime(idB, b.nodeId);
      var r := b.TryUnpause(world.(upgraded := upgraded));
    }

    /** One event.  What is not enabled changes nothing: a poll of a side that is not paused or still has something to send,
        or a delivery when nothing is on the wire. */
    method Step(e: Event, world: World) returns (moved: bool)
      requires Valid() && world.sent
      modifies this, a, a.process, a.process.synCookies, netA`channels, b, b.process, b.process.synCookies, netB`channels
      ensures Valid() && moved == old(Enabled(e))
      ensures Progress() == old(Progress()) + if moved then 1 else 0
    {
      hide Sound, IsReply, HasCookie, FreeSlot, Upgradable, NanoDataReceiver.Safe, NanoDataReceiver.InOrder;
      moved := true;
      if e == Sends(A) && a.queue != [] {
        SendA();
      } else if e == Sends(B) && b.queue != [] {
        SendB();
      } else if e == Delivers(A) && toA != [] && !a.paused {
        DeliverAnswer(world);
      } else if e == Delivers(B) && toB != [] && !b.paused {
        if b.process.handshakeReceived {
          DeliverLast(world);
        } else {
          DeliverQuery(world);
        }
      } else if e == Polls(A) && a.paused && a.queue == [] {
        PollA(world);
      } else if e == Polls(B) && b.paused && b.queue == [] {
        PollB(world);
      } else {
        moved := false;
      }
    }

    /** Whatever the schedule, no side aborts, and the run is at the end after eight steps that were enabled: then both sides
        are realtime, each knows the node id of the other, and the cookie tables are as before. */
    method Run(schedule: seq<Event>, worlds: nat -> World) returns (steps: nat)
      requires Valid() && Progress() == 0 && forall i: nat :: worlds(i).sent
      modifies this, a, a.process, a.process.synCookies, netA`channels, b, b.process, b.process.synCookies, netB`channels
      ensures Valid() && steps == Progress() <= 8 && !a.closed && !b.closed
      ensures steps < 8 ==> exists e :: Enabled(e)
      ensures steps == 8 ==>
        && a.mode == Realtime && a.channelNodeId == Some(NodeIdOf(b.process.node))
        && b.mode == Realtime && b.channelNodeId == Some(NodeIdOf(a.process.node))
        && a.process.synCookies.byEndpoint == cookiesA && b.process.synCookies.byEndpoint == cookiesB
    {
      hide Sound, IsReply, HasCookie, FreeSlot, Upgradable, NanoDataReceiver.Safe, NanoDataReceiver.InOrder;
      steps := 0;
      var n := 0;
      while n < |schedule|
        invariant n <= |schedule| && Valid() && steps == Progress()
      {
        var moved := Step(schedule[n], worlds(n));
        steps := steps + if moved then 1 else 0;
        n := n + 1;
      }
      if steps < 8 {
        NotStuck();
      }
    }
  }
}
