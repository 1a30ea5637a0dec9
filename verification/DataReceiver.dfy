/** `NanoDataReceiver`: a channel starts undefined, is upgraded to realtime by a handshake, and passes messages on only then.

    The channel is driven by its network adapter: while `receive` has asked for a pause, the adapter does not call it again
    but calls `try_unpause` until that says how to go on. */
module DataReceiver {
  import opened Wrappers
  import opened Bytes
  import opened Codec
  import opened StreamParser
  import opened Addresses
  import opened ChannelMode
  import opened SynCookies
  import opened HandshakeProcess

  datatype ReceiveResult = Continue | Abort | Pause

  /** What the surroundings decide during one step: random numbers, whether a message could be sent or enqueued, and whether
      the network allowed the upgrade to realtime. */
  datatype World = World(chance: Chance, sent: bool, enqueued: bool, upgraded: bool)

  /** Why a peer owns a node id: its response, and the cookie that it signs. */
  datatype Evidence = Evidence(response: Response, proof: Proof)

  predicate IsProcessed(m: Message) {
    m.Keepalive? || m.Publish? || m.AscPullAck? || m.AscPullReq? || m.ConfirmAck? || m.ConfirmReq? || m.FrontierReq?
    || m.TelemetryAck?
  }

  /** Whether a realtime channel stops at an outcome: there is no room for a message, or an error that is no duplicate. */
  predicate Stops(outcome: Outcome, world: World) {
    match outcome
    case Ok(received) => IsProcessed(received.message) && !world.enqueued
    case Err(e) => e != DuplicatePublishMessage && e != DuplicateConfirmAckMessage
  }

  /** What a realtime channel has to pass on of an outcome ... */
  function Passable(outcome: Outcome): seq<Message> {
    if outcome.Ok? && IsProcessed(outcome.value.message) then [outcome.value.message] else []
  }

  /** ... and of many, from `start` on. */
  ghost function PassableFrom(outcomes: seq<Outcome>, start: nat): seq<Message>
    decreases |outcomes|
  {
    if |outcomes| <= start then []
    else PassableFrom(outcomes[..|outcomes| - 1], start) + Passable(outcomes[|outcomes| - 1])
  }

  /** The message that waits for a retry while a realtime channel is paused. */
  ghost function Waiting(paused: bool, retry: Option<Message>): seq<Message> {
    if paused && retry.Some? then [retry.value] else []
  }

  /** Exactly once and in order: what was passed on, and the message that waits, is all there was to pass on since the
      upgrade. */
  ghost predicate Delivered(paused: bool, retry: Option<Message>, inbound: seq<Message>, handled: seq<Outcome>, start: nat) {
    && start <= |handled| && (paused ==> retry.Some?)
    && inbound + Waiting(paused, retry) == PassableFrom(handled, start)
  }

  /** One more outcome: the message is passed on, or it waits, or there was none. */
  lemma DeliveredMore(retry: Option<Message>, retry': Option<Message>, inbound: seq<Message>, inbound': seq<Message>,
                      handled: seq<Outcome>, start: nat, outcome: Outcome, paused: bool)
    requires Delivered(false, retry, inbound, handled, start)
    requires if paused then inbound' == inbound && retry'.Some? && Passable(outcome) == [retry'.value]
             else inbound' == inbound + Passable(outcome)
    ensures Delivered(paused, retry', inbound', handled + [outcome], start)
  {
    assert (handled + [outcome])[..|handled|] == handled;
    assert inbound + [] == inbound && inbound' + [] == inbound';
  }

  lemma DeliveredNone(retry: Option<Message>, handled: seq<Outcome>)
    ensures Delivered(false, retry, [], handled, |handled|)
  {
  }

  lemma DeliveredAll(retry: Option<Message>, inbound: seq<Message>, handled: seq<Outcome>, start: nat)
    requires Delivered(true, retry, inbound, handled, start)
    ensures retry.Some? && Delivered(false, retry, inbound + [retry.value], handled, start)
  {
    assert inbound + [retry.value] + [] == inbound + [retry.value];
  }

  /** What was handled, and what is still in the buffer, is what the bytes received so far stand for. */
  ghost predicate Parsed(setup: Setup, first: StreamParser.State, fed: seq<byte>, handled: seq<Outcome>, parser: StreamParser.State) {
    && FilterOk(first.filter) && FilterOk(parser.filter)
    && var rest := Drain(setup, parser);
       Drain(setup, Push(first, fed)) == Drained(handled + rest.outcomes, rest.state)
  }

  lemma ParsedStart(setup: Setup, first: StreamParser.State)
    requires FilterOk(first.filter)
    ensures Parsed(setup, first, [], [], first)
  {
    assert Push(first, []) == first by { assert first.buffer + [] == first.buffer; }
    assert [] + Drain(setup, first).outcomes == Drain(setup, first).outcomes;
  }

  /** More bytes arrive, also while some of the earlier ones are still in the buffer. */
  lemma ParsedPush(setup: Setup, first: StreamParser.State, fed: seq<byte>, handled: seq<Outcome>, parser: StreamParser.State,
                   data: seq<byte>)
    requires Parsed(setup, first, fed, handled, parser)
    ensures Parsed(setup, first, fed + data, handled, Push(parser, data))
  {
    hide Drain;
    DrainSplit(setup, Push(first, fed), data);
    DrainSplit(setup, parser, data);
    assert Push(Push(first, fed), data) == Push(first, fed + data) by {
      assert first.buffer + fed + data == first.buffer + (fed + data);
    }
    var rest := Drain(setup, parser);
    var more := Drain(setup, Push(rest.state, data));
    assert handled + rest.outcomes + more.outcomes == handled + (rest.outcomes + more.outcomes);
  }

  lemma ParsedTry(setup: Setup, first: StreamParser.State, fed: seq<byte>, handled: seq<Outcome>, parser: StreamParser.State)
    requires Parsed(setup, first, fed, handled, parser)
    ensures var t := TryDeserialize(setup, parser);
            Parsed(setup, first, fed, if t.outcome.Some? then handled + [t.outcome.value] else handled, t.state)
  {
    hide TryDeserialize;
    TryShrinks(setup, parser);
    var t := TryDeserialize(setup, parser);
    if t.outcome.Some? {
      var rest := Drain(setup, t.state);
      assert handled + ([t.outcome.value] + rest.outcomes) == handled + [t.outcome.value] + rest.outcomes;
    } else {
      TryAgain(setup, parser);
    }
  }

  /** Asking again without new data changes nothing. */
  lemma TryAgain(setup: Setup, parser: StreamParser.State)
    requires FilterOk(parser.filter) && TryDeserialize(setup, parser).outcome.None?
    ensures TryDeserialize(setup, TryDeserialize(setup, parser).state) == TryDeserialize(setup, parser)
  {
    IdleIsTransparent(setup, parser, []);
    var s' := TryDeserialize(setup, parser).state;
    assert Push(parser, []) == parser by { assert parser.buffer + [] == parser.buffer; }
    assert Push(s', []) == s' by { assert s'.buffer + [] == s'.buffer; }
  }

  lemma ParsedFilter(setup: Setup, first: StreamParser.State, fed: seq<byte>, handled: seq<Outcome>, parser: StreamParser.State)
    requires Parsed(setup, first, fed, handled, parser)
    ensures FilterOk(parser.filter)
  {
  }

  lemma DrainedNow(setup: Setup, parser: StreamParser.State)
    requires FilterOk(parser.filter) && TryDeserialize(setup, parser).outcome.None?
    ensures FilterOk(TryDeserialize(setup, parser).state.filter)
    ensures Drain(setup, TryDeserialize(setup, parser).state).outcomes == []
  {
    hide TryDeserialize;
    TryShrinks(setup, parser);
    TryAgain(setup, parser);
  }

  /** The records only grew, and new evidence comes with a cookie that was not taken before. */
  ghost predicate Fresh(before: Records, after: Records, e: Option<Evidence>, e': Option<Evidence>) {
    Grows(before, after) && (e' == e || (e'.Some? && e'.value.proof.number !in before.taken))
  }

  lemma FreshSame(records: Records, e: Option<Evidence>)
    ensures Fresh(records, records, e, e)
  {
  }

  lemma FreshConcat(r0: Records, r1: Records, r2: Records, e0: Option<Evidence>, e1: Option<Evidence>, e2: Option<Evidence>)
    requires Fresh(r0, r1, e0, e1) && Fresh(r1, r2, e1, e2)
    ensures Fresh(r0, r2, e0, e2)
  {
  }

  /** The part of a channel that safety is about. */
  datatype Snapshot = Snapshot(
    mode: Mode, channelNodeId: Option<B32>, nodeId: B32, inbound: seq<Message>, paused: bool, evidence: Option<Evidence>,
    responses: nat, received: bool)

  /** The response in `evidence` proves ownership of the node id: it signs a cookie that was issued to this peer and that was
      taken out of the table. */
  ghost predicate ProvenIn(node: Node, peer: Endpoint, nodeId: B32, evidence: Option<Evidence>, records: Records) {
    && evidence.Some?
    && var e := evidence.value;
    && e.response.nodeId == nodeId
    && nodeId != node.crypto.nodeId(node.key)
    && (e.response.v2.Some? ==> e.response.v2.value.genesis == node.genesis)
    && SignatureOk(node.crypto, e.response, e.proof.cookie)
    && Taken(records, peer, e.proof)
  }

  ghost predicate SafeIn(node: Node, peer: Endpoint, c: Snapshot, records: Records) {
    && (c.mode == Realtime ==> ProvenIn(node, peer, c.nodeId, c.evidence, records) && c.channelNodeId == Some(c.nodeId))
    && (c.mode == Undefined && c.paused ==> ProvenIn(node, peer, c.nodeId, c.evidence, records))
    && (c.mode == Undefined ==> c.inbound == [])
    && (c.evidence.Some? ==> c.evidence.value.proof.number in records.taken)
    && c.responses <= (if c.received then 1 else 0)
  }

  /** What other channels do to the cookies does not matter. */
  lemma SafeInGrows(node: Node, peer: Endpoint, c: Snapshot, records: Records, records': Records)
    requires SafeIn(node, peer, c, records) && Grows(records, records')
    ensures SafeIn(node, peer, c, records')
  {
  }

  class NanoDataReceiver {
    const process: HandshakeProcess
    const peer: Endpoint
    const setup: Setup
    var mode: Mode                 // of the channel
    var channelNodeId: Option<B32>
    var queue: seq<Handshake>      // handshakes that wait to be sent
    var protocolVersion: byte
    var firstMessage: bool
    var nodeId: B32                // node id of the peer, once verified
    var retryEnqueue: Option<Message>
    var parser: StreamParser.State // of the deserializer
    var inbound: seq<Message>      // what has been passed on
    var paused: bool               // what the adapter remembers: the last result was `Pause`
    var closed: bool               // ... or `Abort`
    ghost const first: StreamParser.State
    ghost var responses: nat       // how many queries have been answered
    ghost var evidence: Option<Evidence>
    ghost var fed: seq<byte>       // all bytes received
    ghost var handled: seq<Outcome>
    ghost var upgradedAt: nat      // how many outcomes had been handled at the upgrade

    constructor (process: HandshakeProcess, peer: Endpoint, setup: Setup, filter: Option<Filter>)
      requires process.synCookies.Valid() && !process.handshakeReceived && FilterOk(filter)
      ensures this.process == process && this.peer == peer && this.setup == setup && Safe() && InOrder()
      ensures mode == Undefined && !paused && !closed && queue == [] && inbound == [] && fed == [] && evidence.None?
    {
      this.process, this.peer, this.setup := process, peer, setup;
      mode, channelNodeId, queue, protocolVersion, firstMessage := Undefined, None, [], 0, true;
      nodeId, retryEnqueue, inbound := Zeros(32), None, [];
      parser, first := StreamParser.State([], None, filter), StreamParser.State([], None, filter);
      paused, closed, responses, evidence, fed, handled, upgradedAt := false, false, 0, None, [], [], 0;
      new;
      ParsedStart(setup, first);
    }

    ghost function Snap(): Snapshot
      reads this, process
    {
      Snapshot(mode, channelNodeId, nodeId, inbound, paused, evidence, responses, process.handshakeReceived)
    }

    ghost predicate Proven()
      reads this, process, process.synCookies
    {
      ProvenIn(process.node, peer, nodeId, evidence, process.synCookies.records)
    }

    /** What holds after every step, whatever the peer sends. */
    ghost predicate Safe()
      reads this, process, process.synCookies
    {
      process.synCookies.Valid() && SafeIn(process.node, peer, Snap(), process.synCookies.records)
    }

    /** Nothing is lost, repeated or out of order between the bytes and what is passed on. */
    ghost predicate InOrder()
      reads this
    {
      && (mode == Realtime ==> Delivered(paused, retryEnqueue, inbound, handled, upgradedAt))
      && Parsed(setup, first, fed, handled, parser)
    }

    /** An outbound channel begins with a query. */
    method EnsureHandshake(isOutbound: bool, world: World)
      requires Safe() && mode == Undefined && !paused && !closed
      modifies `queue, `closed, process.synCookies
      ensures Safe() && Grows(old(process.synCookies.records), process.synCookies.records)
      ensures old(InOrder()) ==> InOrder()
      ensures !isOutbound ==> unchanged(this) && unchanged(process.synCookies)
      ensures isOutbound ==>
                var (cookie, cookies) :=
                  Assigned(old(process.synCookies.Value()), peer, world.chance.cookie, process.synCookies.maxPerIp);
                && process.synCookies.Value() == cookies
                && closed == !(cookie.Some? && world.sent)
                && queue == if closed then old(queue) else old(queue) + [QueryMessage(cookie.value)]
    {
      hide Counted, RecordsOk, Parsed, Delivered;
      GrowsSame(process.synCookies.records);
      if isOutbound {
        var query := process.InitiateHandshake(peer, world.chance);
        if query.Some? && world.sent {
          queue := queue + [query.value];
        } else {
          closed := true;
        }
      }
    }

    method QueueRealtime(m: Message, world: World) returns (r: ReceiveResult)
      requires Safe() && mode == Realtime
      modifies `inbound, `retryEnqueue
      ensures Safe()
      ensures inbound == if world.enqueued then old(inbound) + [m] else old(inbound)
      ensures r == if world.enqueued then Continue else Pause
      ensures retryEnqueue == if r == Pause then Some(m) else old(retryEnqueue)
    {
      if world.enqueued {
        inbound := inbound + [m];
        return Continue;
      } else {
        retryEnqueue := Some(m);
        return Pause;
      }
    }

    /** What `process_message` makes of a handshake, given the result of the handshake process. */
    static ghost function HandshakeResult(result: Result<Processed, HandshakeError>, sent: bool): ReceiveResult {
      if result.Err? || (result.value.reply.Some? && !sent) then Abort
      else if result.value.nodeId.None? then Continue
      else Pause
    }

    method ProcessHandshake(m: Handshake, world: World) returns (r: ReceiveResult)
      requires Safe() && !paused && !closed && mode == Undefined
      modifies `queue, `nodeId, `responses, `evidence, process, process.synCookies
      ensures process.synCookies.Valid()
      ensures responses <= (if process.handshakeReceived then 1 else 0)
      ensures r == Pause ==> Proven()
      ensures evidence.Some? ==> evidence.value.proof.number in process.synCookies.records.taken
      ensures Fresh(old(process.synCookies.records), process.synCookies.records, old(evidence), evidence)
      ensures var (result, side) :=
                Process(process.node, old(process.Value()), m, peer, world.chance, process.synCookies.maxPerIp);
              && process.Value() == side
              && r == HandshakeResult(result, world.sent)
              && (r == Pause ==> nodeId == result.value.nodeId.value)
              && queue == if result.Ok? && result.value.reply.Some? && world.sent
                          then old(queue) + [result.value.reply.value] else old(queue)
    {
      hide Counted, RecordsOk;
      var result;
      ghost var proof;
      result, proof := process.ProcessHandshake(m, peer, world.chance);
      if result.Err? {
        return Abort;
      }
      if result.value.reply.Some? {
        responses := responses + 1;
        if world.sent {
          queue := queue + [result.value.reply.value];
        } else {
          return Abort;
        }
      }
      if result.value.nodeId.None? {
        return Continue;
      }
      nodeId := result.value.nodeId.value;
      evidence := Some(Evidence(m.response.value, proof));
      return Pause;
    }

    /** Before the mode is set, only handshakes are accepted. */
    method ProcessFirst(m: Message, world: World) returns (r: ReceiveResult)
      requires Safe() && !paused && !closed && mode == Undefined
      modifies `queue, `nodeId, `responses, `evidence, `paused, `closed, process, process.synCookies
      ensures Safe() && paused == (r == Pause) && closed == (r == Abort)
      ensures old(InOrder()) ==> InOrder()
      ensures Fresh(old(process.synCookies.records), process.synCookies.records, old(evidence), evidence)
      ensures !m.NodeIdHandshake? ==> r == Abort
      ensures m.NodeIdHandshake? ==>
                var (result, side) :=
                  Process(process.node, old(process.Value()), m.handshake, peer, world.chance, process.synCookies.maxPerIp);
                && process.Value() == side
                && r == HandshakeResult(result, world.sent)
                && (r == Pause ==> nodeId == result.value.nodeId.value)
                && queue == if result.Ok? && result.value.reply.Some? && world.sent
                            then old(queue) + [result.value.reply.value] else old(queue)
    {
      hide Process, CheckResponse, CreateResponse, Assigned, Counted, RecordsOk, ProvenIn, Fresh, HandshakeResult,
           Parsed, Delivered;
      FreshSame(process.synCookies.records, evidence);
      if m.NodeIdHandshake? {
        r := ProcessHandshake(m.handshake, world);
      } else {
        r := Abort;
      }
      paused, closed := r == Pause, r == Abort;
    }

    /** Handles one message. */
    method ProcessMessage(m: Message, world: World) returns (r: ReceiveResult)
      requires Safe() && !paused && !closed
      modifies `queue, `nodeId, `responses, `evidence, `inbound, `retryEnqueue, `paused, `closed, process, process.synCookies
      ensures Safe() && paused == (r == Pause) && closed == (r == Abort)
      ensures mode == Undefined && old(InOrder()) ==> InOrder()
      ensures Fresh(old(process.synCookies.records), process.synCookies.records, old(evidence), evidence)
      // In realtime mode, messages are passed on; everything else stays as it is.
      ensures mode == Realtime ==>
                && unchanged(`queue, `nodeId, `responses, `evidence, process, process.synCookies)
                && inbound == (if IsProcessed(m) && world.enqueued then old(inbound) + [m] else old(inbound))
                && r == (if IsProcessed(m) && !world.enqueued then Pause else Continue)
                && (r == Pause ==> retryEnqueue == Some(m))
      // Before that, only handshakes are accepted.
      ensures mode == Undefined && !m.NodeIdHandshake? ==> r == Abort
      ensures mode == Undefined && m.NodeIdHandshake? ==>
                var (result, side) :=
                  Process(process.node, old(process.Value()), m.handshake, peer, world.chance, process.synCookies.maxPerIp);
                && process.Value() == side
                && r == HandshakeResult(result, world.sent)
                && (r == Pause ==> nodeId == result.value.nodeId.value)
                && queue == if result.Ok? && result.value.reply.Some? && world.sent
                            then old(queue) + [result.value.reply.value] else old(queue)
    {
      hide Process, CheckResponse, CreateResponse, Assigned, Counted, RecordsOk, ProvenIn, Fresh, HandshakeResult,
           Parsed, Delivered;
      FreshSame(process.synCookies.records, evidence);
      if mode == Undefined {
        r := ProcessFirst(m, world);
        return;
      }
      if IsProcessed(m) {
        r := QueueRealtime(m, world);
        paused := r == Pause;
      } else {
        r := Continue;
      }
    }

    /** Handles one outcome of the deserializer. */
    method Handle(outcome: Outcome, world: World) returns (r: ReceiveResult)
      requires Safe() && !paused && !closed
      requires mode == Realtime ==> Delivered(paused, retryEnqueue, inbound, handled, upgradedAt)
      modifies `queue, `nodeId, `responses, `evidence, `inbound, `retryEnqueue, `paused, `closed, `protocolVersion, `firstMessage,
               `handled, process, process.synCookies
      ensures Safe() && paused == (r == Pause) && closed == (r == Abort)
      ensures Fresh(old(process.synCookies.records), process.synCookies.records, old(evidence), evidence)
      ensures handled == old(handled) + [outcome]
      ensures mode == Realtime ==> Delivered(paused, retryEnqueue, inbound, handled, upgradedAt)
      ensures mode == Realtime ==> (r != Continue <==> Stops(outcome, world))
    {
      hide Process, CheckResponse, CreateResponse, Assigned, HandshakeResult, Counted, RecordsOk, Fresh, Delivered, Parsed,
           ProvenIn;
      FreshSame(process.synCookies.records, evidence);
      r, handled := Continue, handled + [outcome];
      if outcome.Ok? {
        if firstMessage {
          protocolVersion := outcome.value.protocol.versionUsing;
          firstMessage := false;
        }
        r := ProcessMessage(outcome.value.message, world);
      } else if outcome.error != DuplicatePublishMessage && outcome.error != DuplicateConfirmAckMessage {
        closed := true;
        r := Abort;
      }
      if mode == Realtime {
        DeliveredMore(old(retryEnqueue), retryEnqueue, old(inbound), inbound, old(handled), upgradedAt, outcome, paused);
      }
    }

    /** Reads and handles messages until there are no more or something stops it; the rest stays in the buffer. */
    method Receive(data: seq<byte>, worlds: nat -> World) returns (r: ReceiveResult)
      requires Safe() && InOrder() && !paused && !closed
      modifies this, process, process.synCookies
      ensures Safe() && InOrder() && mode == old(mode) && fed == old(fed) + data
      ensures paused == (r == Pause) && closed == (r == Abort)
      ensures Fresh(old(process.synCookies.records), process.synCookies.records, old(evidence), evidence)
      ensures r == Continue ==> Drain(setup, parser).outcomes == []
    {
      hide Process, Delivered, Parsed, TryDeserialize, Fresh, Drain, Counted, RecordsOk;
      FreshSame(process.synCookies.records, evidence);
      ParsedFilter(setup, first, fed, handled, parser);
      ParsedPush(setup, first, fed, handled, parser, data);
      parser, fed := Push(parser, data), fed + data;
      var n := 0;
      while true
        invariant Safe() && !paused && !closed && mode == old(mode) && fed == old(fed) + data && FilterOk(parser.filter)
        invariant InOrder()
        invariant Fresh(old(process.synCookies.records), process.synCookies.records, old(evidence), evidence)
        decreases Size(parser)
      {
        ParsedTry(setup, first, fed, handled, parser);
        TryShrinks(setup, parser);
        var t := TryDeserialize(setup, parser);
        ghost var before := parser;
        parser := t.state;
        if t.outcome.None? {
          DrainedNow(setup, before);
          return Continue;
        }
        ghost var records, evidence0 := process.synCookies.records, evidence;
        r := Handle(t.outcome.value, worlds(n));
        FreshConcat(old(process.synCookies.records), records, process.synCookies.records, old(evidence), evidence0, evidence);
        n := n + 1;
        if r != Continue {
          return;
        }
      }
    }

    /** Paused during the handshake: the upgrade waits until the last handshake has been sent. */
    method TryUpgrade(upgraded: bool) returns (r: ReceiveResult)
      requires Safe() && paused && !closed && mode == Undefined
      modifies `mode, `channelNodeId, `paused, `closed, `upgradedAt
      ensures Safe() && paused == (r == Pause) && closed == (r == Abort)
      ensures r == if queue != [] then Pause else if upgraded then Continue else Abort
      ensures mode == if r == Continue then Realtime else Undefined
      ensures r == Continue ==> channelNodeId == Some(nodeId) && upgradedAt == |handled|
    {
      hide Counted, RecordsOk, SignatureOk;
      if queue != [] {
        return Pause;
      }
      if !upgraded {
        paused, closed := false, true;
        return Abort;
      }
      channelNodeId := Some(nodeId);
      mode := Realtime;
      paused, upgradedAt := false, |handled|;
      return Continue;
    }

    /** Paused in realtime mode: the message that waits is tried again. */
    method Retry(enqueued: bool) returns (r: ReceiveResult)
      requires Safe() && paused && !closed && mode == Realtime
      requires Delivered(paused, retryEnqueue, inbound, handled, upgradedAt)
      modifies `inbound, `paused
      ensures Safe() && paused == (r == Pause) && r != Abort
      ensures r == if enqueued then Continue else Pause
      ensures inbound == if enqueued then old(inbound) + Waiting(true, retryEnqueue) else old(inbound)
      ensures Delivered(paused, retryEnqueue, inbound, handled, upgradedAt)
    {
      hide Counted, RecordsOk, SignatureOk, Delivered;
      DeliveredAll(retryEnqueue, inbound, handled, upgradedAt);
      if retryEnqueue.Some? {
        if !enqueued {
          return Pause;
        }
        inbound := inbound + [retryEnqueue.value];
      }
      paused := false;
      return Continue;
    }

    /** A handshake leaves the send queue. */
    method SendOne() returns (sent: Option<Handshake>)
      requires Safe() && InOrder()
      modifies `queue
      ensures Safe() && InOrder()
      ensures if old(queue) == [] then sent == None && queue == [] else sent == Some(old(queue)[0]) && queue == old(queue)[1..]
    {
      hide Counted, RecordsOk, SignatureOk, Parsed, Delivered;
      if queue == [] {
        return None;
      }
      sent := Some(queue[0]);
      queue := queue[1..];
    }

    method TryUnpause(world: World) returns (r: ReceiveResult)
      requires Safe() && InOrder() && paused && !closed
      modifies `mode, `channelNodeId, `inbound, `paused, `closed, `upgradedAt
      ensures Safe() && InOrder()
      ensures paused == (r == Pause) && closed == (r == Abort)
      ensures old(mode) == Undefined ==>
                && inbound == old(inbound)
                && r == (if queue != [] then Pause else if world.upgraded then Continue else Abort)
                && mode == (if r == Continue then Realtime else Undefined)
                && (r == Continue ==> channelNodeId == Some(nodeId))
      ensures old(mode) == Realtime ==>
                && mode == Realtime
                && r == (if world.enqueued then Continue else Pause)
                && inbound == if world.enqueued then old(inbound) + Waiting(true, retryEnqueue) else old(inbound)
    {
      hide Parsed, Counted, RecordsOk, SignatureOk, Delivered;
      if mode == Undefined {
        assert inbound == [];
        r := TryUpgrade(world.upgraded);
        DeliveredNone(retryEnqueue, handled);
      } else {
        r := Retry(world.enqueued);
      }
    }
  }

  // ----- all channels of a node ----------------------------------------------------------------------------------------------

  /** What can happen: data from a peer, a poll by the adapter and a sent message on one of the channels, and what else the
      node does with the cookies. */
  datatype Event =
    | Data(channel: nat, bytes: seq<byte>, worlds: nat -> World)
    | Poll(channel: nat, world: World)
    | Sent(channel: nat)
    | OtherAssign(endpoint: Endpoint, info: CookieInfo)
    | OtherTake(endpoint: Endpoint)
    | Purge(now: nat, cutoff: nat)

  lemma FreshFacts(before: Records, after: Records, e: Option<Evidence>, e': Option<Evidence>)
    requires Fresh(before, after, e, e')
    ensures Grows(before, after) && (e' == e || (e'.Some? && e'.value.proof.number !in before.taken))
  {
  }

  lemma TakenEvidence(node: Node, peer: Endpoint, c: Snapshot, records: Records)
    requires SafeIn(node, peer, c, records)
    ensures c.evidence.Some? ==> c.evidence.value.proof.number in records.taken
  {
  }

  /** All channels are safe and in order, they share the cookies, and no cookie has proved two of them. */
  ghost predicate AllSafe(receivers: seq<NanoDataReceiver>, cookies: SynCookies)
    reads receivers, set r | r in receivers :: r.process, cookies
  {
    && cookies.Valid()
    && (forall i | 0 <= i < |receivers| ::
          receivers[i].process.synCookies == cookies && receivers[i].Safe() && receivers[i].InOrder())
    && (forall i, j | 0 <= i < j < |receivers| ::
          receivers[i] != receivers[j] && receivers[i].process != receivers[j].process)
    && (forall i, j | 0 <= i < j < |receivers| && receivers[i].evidence.Some? && receivers[j].evidence.Some? ::
          receivers[i].evidence.value.proof.number != receivers[j].evidence.value.proof.number)
  }

  /** Data arrives on one channel. */
  method DataStep(receivers: seq<NanoDataReceiver>, cookies: SynCookies, k: nat, bytes: seq<byte>, worlds: nat -> World)
    requires AllSafe(receivers, cookies) && k < |receivers| && !receivers[k].paused && !receivers[k].closed
    modifies receivers[k], receivers[k].process, cookies
    ensures AllSafe(receivers, cookies)
  {
    hide Counted, RecordsOk, SafeIn, Parsed, Delivered, Fresh, Grows, Drain;
    FreshSame(cookies.records, receivers[k].evidence);
    var result := receivers[k].Receive(bytes, worlds);
    FreshFacts(old(cookies.records), cookies.records, old(receivers[k].evidence), receivers[k].evidence);
    forall i | 0 <= i < |receivers| && i != k
      ensures receivers[i].Safe()
      ensures receivers[i].evidence.Some? ==> receivers[i].evidence.value.proof.number in old(cookies.records).taken
    {
      SafeInGrows(receivers[i].process.node, receivers[i].peer, receivers[i].Snap(), old(cookies.records), cookies.records);
      TakenEvidence(receivers[i].process.node, receivers[i].peer, receivers[i].Snap(), old(cookies.records));
    }
  }

  /** The adapter of one channel polls. */
  method PollStep(receivers: seq<NanoDataReceiver>, cookies: SynCookies, k: nat, world: World)
    requires AllSafe(receivers, cookies) && k < |receivers| && receivers[k].paused && !receivers[k].closed
    modifies receivers[k], receivers[k].process, cookies
    ensures AllSafe(receivers, cookies)
  {
    hide Counted, RecordsOk, SafeIn, Parsed, Delivered, Fresh, Grows, Drain;
    FreshSame(cookies.records, receivers[k].evidence);
    var result := receivers[k].TryUnpause(world);
    FreshFacts(old(cookies.records), cookies.records, old(receivers[k].evidence), receivers[k].evidence);
    forall i | 0 <= i < |receivers| && i != k
      ensures receivers[i].Safe()
      ensures receivers[i].evidence.Some? ==> receivers[i].evidence.value.proof.number in old(cookies.records).taken
    {
      SafeInGrows(receivers[i].process.node, receivers[i].peer, receivers[i].Snap(), old(cookies.records), cookies.records);
      TakenEvidence(receivers[i].process.node, receivers[i].peer, receivers[i].Snap(), old(cookies.records));
    }
  }

  /** One channel sends a handshake. */
  method SendStep(receivers: seq<NanoDataReceiver>, cookies: SynCookies, k: nat)
    requires AllSafe(receivers, cookies) && k < |receivers|
    modifies receivers[k], receivers[k].process, cookies
    ensures AllSafe(receivers, cookies)
  {
    hide Counted, RecordsOk, SafeIn, Parsed, Delivered, Fresh, Grows, Drain;
    FreshSame(cookies.records, receivers[k].evidence);
    var result := receivers[k].SendOne();
    FreshFacts(old(cookies.records), cookies.records, old(receivers[k].evidence), receivers[k].evidence);
    forall i | 0 <= i < |receivers| && i != k
      ensures receivers[i].Safe()
      ensures receivers[i].evidence.Some? ==> receivers[i].evidence.value.proof.number in old(cookies.records).taken
    {
      SafeInGrows(receivers[i].process.node, receivers[i].peer, receivers[i].Snap(), old(cookies.records), cookies.records);
      TakenEvidence(receivers[i].process.node, receivers[i].peer, receivers[i].Snap(), old(cookies.records));
    }
  }

  /** One event outside the channels. */
  method CookieStep(receivers: seq<NanoDataReceiver>, cookies: SynCookies, event: Event)
    requires AllSafe(receivers, cookies)
    requires event.OtherAssign? || event.OtherTake? || event.Purge?
    modifies cookies
    ensures AllSafe(receivers, cookies)
  {
    hide Counted, RecordsOk, SafeIn, Parsed, Delivered, Grows;
    if event.OtherAssign? {
      var cookie := cookies.Assign(event.endpoint, event.info);
    } else if event.OtherTake? {
      var cookie := cookies.Cookie(event.endpoint);
    } else {
      cookies.Purge(event.now, event.cutoff);
    }
    forall i | 0 <= i < |receivers| ensures receivers[i].Safe() {
      SafeInGrows(receivers[i].process.node, receivers[i].peer, receivers[i].Snap(), old(cookies.records), cookies.records);
    }
  }

  /** Over every run of all channels of a node, against any peers: a channel is realtime only with a verified response to a
      cookie that was issued to its peer and that is gone from the table, no cookie proves two channels, nothing is passed
      on before, and then everything exactly once and in order; at most one query per channel is answered. */
  method Run(receivers: seq<NanoDataReceiver>, cookies: SynCookies, events: seq<Event>)
    requires AllSafe(receivers, cookies)
    modifies receivers, set r | r in receivers :: r.process, cookies
    ensures AllSafe(receivers, cookies)
    ensures forall i | 0 <= i < |receivers| :: receivers[i].mode == Realtime ==> receivers[i].Proven()
    ensures forall i | 0 <= i < |receivers| :: receivers[i].inbound != [] ==> receivers[i].mode == Realtime
    ensures forall i | 0 <= i < |receivers| :: receivers[i].responses <= 1
    ensures forall i, j | 0 <= i < |receivers| && 0 <= j < |receivers| && i != j ::
              receivers[i].mode == Realtime && receivers[j].mode == Realtime ==>
              receivers[i].evidence.value.proof.number != receivers[j].evidence.value.proof.number
  {
    hide Counted, RecordsOk, SignatureOk, Parsed, Delivered;
    var n := 0;
    while n < |events|
      invariant n <= |events| && AllSafe(receivers, cookies)
    {
      var event := events[n];
      if event.OtherAssign? || event.OtherTake? || event.Purge? {
        CookieStep(receivers, cookies, event);
      } else if event.channel < |receivers| {
        var receiver := receivers[event.channel];
        if event.Sent? {
          SendStep(receivers, cookies, event.channel);
        } else if event.Data? && !receiver.paused && !receiver.closed {
          DataStep(receivers, cookies, event.channel, event.bytes, event.worlds);
        } else if event.Poll? && receiver.paused && !receiver.closed {
          PollStep(receivers, cookies, event.channel, event.world);
        }
      }
      n := n + 1;
    }
  }
}
