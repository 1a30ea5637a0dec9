/** `MessageDeserializer`: cuts a byte stream that arrives in arbitrary pieces into messages. */
module StreamParser {
  import opened Wrappers
  import opened Bytes
  import opened Messages
  import opened Codec

  // ----- headers ---------------------------------------------------------------------------------------------------------

  const HEADER_SIZE: nat := 8
  const MAX_MESSAGE_SIZE: nat := 1024 * 65

  datatype Protocol = Protocol(network: u16, versionMax: byte, versionUsing: byte, versionMin: byte)

  datatype Header = Header(protocol: Protocol, messageType: MessageType, extensions: u16)

  predicate IsNetwork(network: nat) {
    network in {0, 0x4241, 0x4242, 0x4258, 0x4243}
  }

  function TypeCode(t: MessageType): byte {
    match t
    case InvalidT => 0 case NotATypeT => 1 case KeepaliveT => 2 case PublishT => 3 case ConfirmReqT => 4
    case ConfirmAckT => 5 case BulkPullT => 6 case BulkPushT => 7 case FrontierReqT => 8 case NodeIdHandshakeT => 10
    case BulkPullAccountT => 11 case TelemetryReqT => 12 case TelemetryAckT => 13 case AscPullReqT => 14
    case AscPullAckT => 15
  }

  function TypeFromCode(code: byte): Option<MessageType> {
    match code as int
    case 0 => Some(InvalidT) case 1 => Some(NotATypeT) case 2 => Some(KeepaliveT) case 3 => Some(PublishT)
    case 4 => Some(ConfirmReqT) case 5 => Some(ConfirmAckT) case 6 => Some(BulkPullT) case 7 => Some(BulkPushT)
    case 8 => Some(FrontierReqT) case 10 => Some(NodeIdHandshakeT) case 11 => Some(BulkPullAccountT)
    case 12 => Some(TelemetryReqT) case 13 => Some(TelemetryAckT) case 14 => Some(AscPullReqT)
    case 15 => Some(AscPullAckT)
    case _ => None
  }

  function WriteHeader(h: Header): (s: seq<byte>)
    ensures |s| == HEADER_SIZE
  {
    [h.protocol.network / 256, h.protocol.network % 256,
     h.protocol.versionMax, h.protocol.versionUsing, h.protocol.versionMin,
     TypeCode(h.messageType),
     h.extensions % 256, h.extensions / 256]
  }

  function ReadHeader(s: seq<byte>): Option<Header>
    requires |s| == HEADER_SIZE
  {
    var network := 256 * (s[0] as int) + s[1];
    var messageType := TypeFromCode(s[5]);
    if !IsNetwork(network) || messageType.None? then None
    else Some(Header(Protocol(network, s[2], s[3], s[4]), messageType.value, s[6] + 256 * (s[7] as int)))
  }

  lemma HeaderRoundTrip(h: Header)
    requires IsNetwork(h.protocol.network)
    ensures ReadHeader(WriteHeader(h)) == Some(h)
  {
  }

  function HeaderPayload(h: Header): nat {
    PayloadLength(h.messageType, h.extensions)
  }

  datatype ParseError =
    | InvalidHeader | InvalidNetwork | OutdatedVersion | MessageSizeTooBig | InvalidMessage(messageType: MessageType)
    | DuplicatePublishMessage | DuplicateConfirmAckMessage

  /** `validate_header`. */
  function ValidateHeader(h: Header, expected: Protocol): Option<ParseError> {
    if h.protocol.network != expected.network then Some(InvalidNetwork)
    else if h.protocol.versionUsing < expected.versionMin then Some(OutdatedVersion)
    else if h.messageType == InvalidT || h.messageType == NotATypeT then Some(InvalidHeader)
    else if HeaderPayload(h) > MAX_MESSAGE_SIZE then Some(MessageSizeTooBig)
    else None
  }

  /** Sixteen extension bits cannot announce a payload beyond the limit, so no header is rejected for its size. */
  lemma NeverTooBig(h: Header, expected: Protocol)
    ensures HeaderPayload(h) <= 65544 < MAX_MESSAGE_SIZE
    ensures ValidateHeader(h, expected) != Some(MessageSizeTooBig)
    ensures ValidateHeader(h, expected).None? <==>
              && h.protocol.network == expected.network && h.protocol.versionUsing >= expected.versionMin
              && h.messageType !in {InvalidT, NotATypeT}
  {
    assert Count(h.extensions) <= 255;
  }

  // ----- the duplicate filter ----------------------------------------------------------------------------------------------

  datatype Entry = Entry(digest: nat, epoch: nat)

  datatype Filter = Filter(items: seq<Entry>, ageCutoff: nat, epoch: nat) {
    predicate Contains(digest: nat)
      requires items != []
    {
      var e := items[digest % |items|];
      e.digest == digest && e.epoch + ageCutoff >= epoch
    }

    /** `apply_digest`: the new filter; the digest was there before if and only if `Contains` holds. */
    function Apply(digest: nat): Filter
      requires items != []
    {
      if Contains(digest) then this
      else Filter(items[digest % |items| := Entry(digest, epoch)], ageCutoff, epoch)
    }
  }

  predicate FilterOk(filter: Option<Filter>) {
    filter.Some? ==> filter.value.items != []
  }

  // ----- one message ---------------------------------------------------------------------------------------------------------

  datatype Received = Received(message: Message, protocol: Protocol)

  type Outcome = Result<Received, ParseError>

  /** What the deserializer remembers between two calls. */
  datatype State = State(buffer: seq<byte>, header: Option<Header>, filter: Option<Filter>)

  /** What it is set up with: the protocol it accepts, and the hash function of the duplicate filter. */
  datatype Setup = Setup(protocol: Protocol, hash: seq<byte> -> nat)

  /** The digest of the payload, or the error for a duplicate. */
  function Digest(setup: Setup, t: MessageType, payload: seq<byte>, filter: Option<Filter>): Result<nat, ParseError>
    requires FilterOk(filter)
  {
    if (t == PublishT || t == ConfirmAckT) && filter.Some? then
      if filter.value.Contains(setup.hash(payload)) then
        Err(if t == ConfirmAckT then DuplicateConfirmAckMessage else DuplicatePublishMessage)
      else Ok(setup.hash(payload))
    else Ok(0)
  }

  function NextFilter(setup: Setup, t: MessageType, payload: seq<byte>, filter: Option<Filter>): (f: Option<Filter>)
    requires FilterOk(filter)
    ensures FilterOk(f)
  {
    if (t == PublishT || t == ConfirmAckT) && filter.Some? then Some(filter.value.Apply(setup.hash(payload))) else filter
  }

  function ParsePayload(setup: Setup, h: Header, payload: seq<byte>, filter: Option<Filter>): Outcome
    requires FilterOk(filter)
  {
    match Digest(setup, h.messageType, payload, filter)
    case Err(e) => Err(e)
    case Ok(digest) =>
      match Deserialize(payload, h.messageType, h.extensions, digest)
      case None => Err(InvalidMessage(h.messageType))
      case Some(message) => Ok(Received(message, h.protocol))
  }

  /** One call of `try_deserialize`: a message or an error if there is one, and the new state. */
  datatype Try = Try(outcome: Option<Outcome>, state: State)

  function TryPayload(setup: Setup, h: Header, s: State): Try
    requires FilterOk(s.filter)
  {
    var n := HeaderPayload(h);
    if |s.buffer| < n then Try(None, s.(header := Some(h)))
    else
      Try(Some(ParsePayload(setup, h, s.buffer[..n], s.filter)),
          State(s.buffer[n..], None, NextFilter(setup, h.messageType, s.buffer[..n], s.filter)))
  }

  function TryDeserialize(setup: Setup, s: State): Try
    requires FilterOk(s.filter)
  {
    if s.header.Some? then TryPayload(setup, s.header.value, s)
    else if |s.buffer| < HEADER_SIZE then Try(None, s)
    else
      var rest := s.(buffer := s.buffer[HEADER_SIZE..]);
      match ReadHeader(s.buffer[..HEADER_SIZE])
      case None => Try(Some(Err(InvalidHeader)), rest)
      case Some(h) =>
        var invalid := ValidateHeader(h, setup.protocol);
        if invalid.Some? then Try(Some(Err(invalid.value)), rest) else TryPayload(setup, h, rest)
  }

  // ----- the stream ------------------------------------------------------------------------------------------------------------

  function Size(s: State): nat {
    |s.buffer| + (if s.header.Some? then 1 else 0)
  }

  function Push(s: State, data: seq<byte>): State {
    s.(buffer := s.buffer + data)
  }

  datatype Drained = Drained(outcomes: seq<Outcome>, state: State)

  /** Calls `try_deserialize` until there is nothing more to read. */
  function Drain(setup: Setup, s: State): (d: Drained)
    requires FilterOk(s.filter)
    ensures FilterOk(d.state.filter)
    decreases Size(s)
  {
    var t := TryDeserialize(setup, s);
    if t.outcome.None? then Drained([], t.state)
    else
      var d := Drain(setup, t.state);
      Drained([t.outcome.value] + d.outcomes, d.state)
  }

  lemma TryShrinks(setup: Setup, s: State)
    requires FilterOk(s.filter)
    ensures FilterOk(TryDeserialize(setup, s).state.filter)
    ensures TryDeserialize(setup, s).outcome.Some? ==> Size(TryDeserialize(setup, s).state) < Size(s)
  {
  }

  /** More data behind what can already be read changes neither the outcome nor what is left over, ... */
  lemma MoreDataLater(setup: Setup, s: State, data: seq<byte>)
    requires FilterOk(s.filter) && TryDeserialize(setup, s).outcome.Some?
    ensures var t := TryDeserialize(setup, s);
            TryDeserialize(setup, Push(s, data)) == Try(t.outcome, Push(t.state, data))
  {
    hide ReadHeader, ValidateHeader, HeaderPayload, ParsePayload, NextFilter;
    var b := s.buffer;
    if s.header.Some? {
      var n := HeaderPayload(s.header.value);
      assert (b + data)[..n] == b[..n] && (b + data)[n..] == b[n..] + data;
    } else {
      assert (b + data)[..HEADER_SIZE] == b[..HEADER_SIZE] && (b + data)[HEADER_SIZE..] == b[HEADER_SIZE..] + data;
      var h := ReadHeader(b[..HEADER_SIZE]);
      if h.Some? && ValidateHeader(h.value, setup.protocol).None? {
        var n, c := HeaderPayload(h.value), b[HEADER_SIZE..];
        assert (c + data)[..n] == c[..n] && (c + data)[n..] == c[n..] + data;
      }
    }
  }

  /** ... and remembering a header that has been read is the same as reading it again. */
  lemma IdleIsTransparent(setup: Setup, s: State, data: seq<byte>)
    requires FilterOk(s.filter) && TryDeserialize(setup, s).outcome.None?
    ensures var s' := TryDeserialize(setup, s).state;
            TryDeserialize(setup, Push(s', data)) == TryDeserialize(setup, Push(s, data))
  {
    var b := s.buffer;
    if s.header.None? && |b| >= HEADER_SIZE {
      assert (b + data)[..HEADER_SIZE] == b[..HEADER_SIZE] && (b + data)[HEADER_SIZE..] == b[HEADER_SIZE..] + data;
    }
  }

  /** Draining after a first part and then after the rest is the same as draining once. */
  lemma {:induction false} DrainSplit(setup: Setup, s: State, data: seq<byte>)
    requires FilterOk(s.filter)
    ensures var d1 := Drain(setup, s);
            var d2 := Drain(setup, Push(d1.state, data));
            Drain(setup, Push(s, data)) == Drained(d1.outcomes + d2.outcomes, d2.state)
    decreases Size(s)
  {
    hide TryDeserialize;
    TryShrinks(setup, s);
    var t := TryDeserialize(setup, s);
    if t.outcome.None? {
      IdleIsTransparent(setup, s, data);
      var d2 := Drain(setup, Push(t.state, data));
      assert [] + d2.outcomes == d2.outcomes;
    } else {
      MoreDataLater(setup, s, data);
      DrainSplit(setup, t.state, data);
      var d := Drain(setup, t.state);
      var d2 := Drain(setup, Push(d.state, data));
      assert [t.outcome.value] + (d.outcomes + d2.outcomes) == [t.outcome.value] + d.outcomes + d2.outcomes;
    }
  }

  function Concat(chunks: seq<seq<byte>>): seq<byte> {
    if chunks == [] then [] else Concat(chunks[..|chunks| - 1]) + chunks[|chunks| - 1]
  }

  /** Pushes every chunk, draining after each. */
  function Feed(setup: Setup, s: State, chunks: seq<seq<byte>>): (d: Drained)
    requires FilterOk(s.filter)
    ensures FilterOk(d.state.filter)
  {
    if chunks == [] then Drain(setup, s)
    else
      var d1 := Feed(setup, s, chunks[..|chunks| - 1]);
      var d2 := Drain(setup, Push(d1.state, chunks[|chunks| - 1]));
      Drained(d1.outcomes + d2.outcomes, d2.state)
  }

  /** However the bytes are cut into chunks, the messages, the errors and the final state are the same. */
  lemma {:induction false} ChunkIndependence(setup: Setup, s: State, chunks: seq<seq<byte>>)
    requires FilterOk(s.filter)
    ensures Feed(setup, s, chunks) == Drain(setup, Push(s, Concat(chunks)))
  {
    hide Drain;
    if chunks == [] {
      assert Push(s, []) == s by { assert s.buffer + [] == s.buffer; }
    } else {
      var k := |chunks| - 1;
      ChunkIndependence(setup, s, chunks[..k]);
      DrainSplit(setup, Push(s, Concat(chunks[..k])), chunks[k]);
      Regroup(s.buffer, Concat(chunks[..k]), chunks[k]);
    }
  }

  /** What is left over is less than a header, or less than the payload that is awaited, which is never beyond the limit. */
  lemma {:induction false} Residue(setup: Setup, s: State)
    requires FilterOk(s.filter)
    ensures var r := Drain(setup, s).state;
            if r.header.None? then |r.buffer| < HEADER_SIZE
            else |r.buffer| < HeaderPayload(r.header.value) <= MAX_MESSAGE_SIZE
    decreases Size(s)
  {
    var t := TryDeserialize(setup, s);
    if t.outcome.Some? {
      Residue(setup, t.state);
    } else if t.state.header.Some? {
      NeverTooBig(t.state.header.value, setup.protocol);
    }
  }

  // ----- parsing what was written ------------------------------------------------------------------------------------------------

  function HeaderOf(sender: Protocol, m: Message): Header
    requires Buildable(m)
  {
    Header(sender, TypeOf(m), Extensions(m))
  }

  /** `MessageSerializer::serialize`: header and payload. */
  function Encode(sender: Protocol, m: Message): seq<byte>
    requires Buildable(m)
  {
    WriteHeader(HeaderOf(sender, m)) + Payload(m)
  }

  function EncodeAll(sender: Protocol, ms: seq<Message>): seq<byte>
    requires forall i | 0 <= i < |ms| :: Buildable(ms[i])
  {
    if ms == [] then [] else Encode(sender, ms[0]) + EncodeAll(sender, ms[1..])
  }

  /** What the receiver makes of a message: the message itself, with its digest, or the error for a duplicate. */
  function Expected(setup: Setup, sender: Protocol, m: Message, filter: Option<Filter>): Outcome
    requires Buildable(m) && FilterOk(filter)
  {
    match Digest(setup, TypeOf(m), Payload(m), filter)
    case Err(e) => Err(e)
    case Ok(digest) => Ok(Received(WithDigest(m, digest), sender))
  }

  function ExpectedAll(setup: Setup, sender: Protocol, ms: seq<Message>, filter: Option<Filter>): Drained
    requires FilterOk(filter) && forall i | 0 <= i < |ms| :: Buildable(ms[i])
  {
    if ms == [] then Drained([], State([], None, filter))
    else
      var d := ExpectedAll(setup, sender, ms[1..], NextFilter(setup, TypeOf(ms[0]), Payload(ms[0]), filter));
      Drained([Expected(setup, sender, ms[0], filter)] + d.outcomes, d.state)
  }

  ghost predicate Compatible(setup: Setup, sender: Protocol) {
    && IsNetwork(sender.network)
    && sender.network == setup.protocol.network
    && sender.versionUsing >= setup.protocol.versionMin
  }

  /** A message that was written is read back, and what follows it is left in the buffer. */
  lemma ReadsEncoded(setup: Setup, sender: Protocol, m: Message, rest: seq<byte>, filter: Option<Filter>)
    requires Buildable(m) && Readable(m) && Compatible(setup, sender) && FilterOk(filter)
    ensures TryDeserialize(setup, State(Encode(sender, m) + rest, None, filter)) ==
            Try(Some(Expected(setup, sender, m, filter)),
                State(rest, None, NextFilter(setup, TypeOf(m), Payload(m), filter)))
  {
    hide Payload, PayloadLength, Deserialize, Extensions, WriteHeader, ReadHeader, Buildable, Readable, Digest, NextFilter, WithDigest;
    var h := HeaderOf(sender, m);
    var b := Encode(sender, m) + rest;
    HeaderRoundTrip(h);
    NeverTooBig(h, setup.protocol);
    assert b[..HEADER_SIZE] == WriteHeader(h) && b[HEADER_SIZE..] == Payload(m) + rest;
    var digest := Digest(setup, TypeOf(m), Payload(m), filter);
    MessageRoundTrip(m, if digest.Ok? then digest.value else 0);
    var n := |Payload(m)|;
    assert (Payload(m) + rest)[..n] == Payload(m) && (Payload(m) + rest)[n..] == rest;
    assert HeaderPayload(h) == n;
    assert TypeOf(m) != InvalidT && TypeOf(m) != NotATypeT;
  }

  /** Parsing the encodings of any messages, cut anywhere, gives exactly those messages. */
  lemma {:induction false} StreamRoundTrip(setup: Setup, sender: Protocol, ms: seq<Message>, filter: Option<Filter>)
    requires FilterOk(filter) && Compatible(setup, sender)
    requires forall i | 0 <= i < |ms| :: Buildable(ms[i]) && Readable(ms[i])
    ensures Drain(setup, State(EncodeAll(sender, ms), None, filter)) == ExpectedAll(setup, sender, ms, filter)
    decreases |ms|
  {
    hide Encode, Buildable, Readable, Expected, NextFilter;
    if ms != [] {
      ReadsEncoded(setup, sender, ms[0], EncodeAll(sender, ms[1..]), filter);
      StreamRoundTrip(setup, sender, ms[1..], NextFilter(setup, TypeOf(ms[0]), Payload(ms[0]), filter));
    }
  }

  lemma ChunkedRoundTrip(setup: Setup, sender: Protocol, ms: seq<Message>, filter: Option<Filter>, chunks: seq<seq<byte>>)
    requires FilterOk(filter) && Compatible(setup, sender)
    requires forall i | 0 <= i < |ms| :: Buildable(ms[i]) && Readable(ms[i])
    requires Concat(chunks) == EncodeAll(sender, ms)
    ensures Feed(setup, State([], None, filter), chunks) == ExpectedAll(setup, sender, ms, filter)
  {
    hide Buildable, Readable, ExpectedAll, Drain, EncodeAll, Feed;
    ChunkIndependence(setup, State([], None, filter), chunks);
    StreamRoundTrip(setup, sender, ms, filter);
    assert [] + Concat(chunks) == EncodeAll(sender, ms);
  }
}
