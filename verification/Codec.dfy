/** `Message`: the payload that is written for a message, the header extensions that describe it, and how both are read. */
module Codec {
  import opened Wrappers
  import opened Bytes
  import opened Messages

  // ----- votes ---------------------------------------------------------------------------------------------------------

  datatype Vote = Vote(head: seq<byte>, hashes: seq<B32>) // voter, signature and timestamp, then the hashes

  const VOTE_HEAD: nat := 104
  const MAX_HASHES: nat := 255

  function WriteHashes(hashes: seq<B32>): seq<byte> {
    if hashes == [] then [] else hashes[0] + WriteHashes(hashes[1..])
  }

  /** Hashes are read as long as there are bytes, up to the maximum. */
  function ReadHashes(s: seq<byte>, taken: nat): Option<seq<B32>>
    decreases |s|
  {
    if s == [] || taken >= MAX_HASHES then Some([])
    else
      var (hash, rest) :- Take(s, 32);
      var more :- ReadHashes(rest, taken + 1);
      Some([hash] + more)
  }

  lemma {:induction false} ReadHashesWritten(hashes: seq<B32>, taken: nat)
    requires taken + |hashes| <= MAX_HASHES
    ensures ReadHashes(WriteHashes(hashes), taken) == Some(hashes)
    ensures |WriteHashes(hashes)| == 32 * |hashes|
  {
    if hashes != [] {
      ReadHashesWritten(hashes[1..], taken + 1);
      TakeWritten(hashes[0], WriteHashes(hashes[1..]));
      assert hashes == [hashes[0]] + hashes[1..];
    }
  }

  /** What has been read so far, followed by what is still to be read. */
  ghost function Prepend<T>(read: seq<T>, more: Option<seq<T>>): (r: Option<seq<T>>)
    ensures read == [] ==> r == more
    ensures more == Some([]) ==> r == Some(read)
  {
    if more.None? then None
    else
      assert read == [] ==> read + more.value == more.value;
      assert more.value == [] ==> read + more.value == read;
      Some(read + more.value)
  }

  /** The loop of `Vote::deserialize`. */
  method DeserializeHashes(s: seq<byte>) returns (r: Option<seq<B32>>)
    ensures r == ReadHashes(s, 0)
  {
    var rest: seq<byte>, hashes: seq<B32> := s, [];
    while rest != [] && |hashes| < MAX_HASHES
      invariant ReadHashes(s, 0) == Prepend(hashes, ReadHashes(rest, |hashes|))
      decreases |rest|
    {
      if |rest| < 32 {
        return None;
      }
      var hash: B32 := rest[..32];
      ghost var more := ReadHashes(rest[32..], |hashes| + 1);
      if more.Some? {
        Regroup(hashes, [hash], more.value);
      }
      rest, hashes := rest[32..], hashes + [hash];
    }
    return Some(hashes);
  }

  function ReadVote(s: seq<byte>): Option<Vote> {
    var (head, rest) :- Take(s, VOTE_HEAD);
    var hashes :- ReadHashes(rest, 0);
    Some(Vote(head, hashes))
  }

  lemma ReadVoteWritten(vote: Vote)
    requires |vote.head| == VOTE_HEAD && |vote.hashes| <= MAX_HASHES
    ensures ReadVote(vote.head + WriteHashes(vote.hashes)) == Some(vote)
    ensures |vote.head + WriteHashes(vote.hashes)| == VOTE_HEAD + 32 * |vote.hashes|
  {
    TakeWritten(vote.head, WriteHashes(vote.hashes));
    ReadHashesWritten(vote.hashes, 0);
  }

  // ----- handshakes ------------------------------------------------------------------------------------------------------

  datatype V2Payload = V2Payload(salt: B32, genesis: B32)

  datatype Response = Response(nodeId: B32, signature: B64, v2: Option<V2Payload>)

  datatype Handshake = Handshake(query: Option<B32>, response: Option<Response>, isV2: bool)

  function WriteQuery(query: Option<B32>): seq<byte> {
    match query
    case Some(cookie) => cookie
    case None => []
  }

  function WriteResponse(response: Option<Response>): seq<byte> {
    match response
    case None => []
    case Some(r) =>
      match r.v2
      case Some(v2) => r.nodeId + (v2.salt + (v2.genesis + r.signature))
      case None => r.nodeId + r.signature
  }

  function WriteHandshake(h: Handshake): seq<byte> {
    WriteQuery(h.query) + WriteResponse(h.response)
  }

  function HandshakeExtensions(h: Handshake): u16 {
    FlagBit(1, h.query.Some?) + FlagBit(2, h.response.Some?) + FlagBit(4, h.isV2)
  }

  function HandshakeSize(extensions: u16): nat {
    (if Flag(extensions, 1) then 32 else 0)
    + (if Flag(extensions, 2) then (if Flag(extensions, 4) then 160 else 96) else 0)
  }

  function ReadResponse(s: seq<byte>, isV2: bool): Option<Response> {
    var (nodeId, s1) :- Take(s, 32);
    if isV2 then
      var (salt, s2) :- Take(s1, 32);
      var (genesis, s3) :- Take(s2, 32);
      var (signature, _) :- Take(s3, 64);
      Some(Response(nodeId, signature, Some(V2Payload(salt, genesis))))
    else
      var (signature, _) :- Take(s1, 64);
      Some(Response(nodeId, signature, None))
  }

  function ReadOptionalQuery(s: seq<byte>, present: bool): Option<(Option<B32>, seq<byte>)> {
    if present then
      var (cookie, rest) :- Take(s, 32);
      Some((Some(cookie), rest))
    else Some((None, s))
  }

  function ReadOptionalResponse(s: seq<byte>, present: bool, isV2: bool): Option<Option<Response>> {
    if present then
      var response :- ReadResponse(s, isV2);
      Some(Some(response))
    else Some(None)
  }

  function ReadHandshake(s: seq<byte>, extensions: u16): Option<Handshake> {
    var (query, rest) :- ReadOptionalQuery(s, Flag(extensions, 1));
    var response :- ReadOptionalResponse(rest, Flag(extensions, 2), Flag(extensions, 4));
    Some(Handshake(query, response, Flag(extensions, 4)))
  }

  /** A response carries the payload of version 2 exactly when the handshake says that it is of version 2. */
  predicate HandshakeOk(h: Handshake) {
    h.response.Some? ==> h.isV2 == h.response.value.v2.Some?
  }

  lemma ReadResponseWritten(r: Response)
    ensures ReadResponse(WriteResponse(Some(r)), r.v2.Some?) == Some(r)
  {
    match r.v2 {
      case Some(v2) =>
        TakeWritten(r.nodeId, v2.salt + (v2.genesis + r.signature));
        TakeWritten(v2.salt, v2.genesis + r.signature);
        TakeWritten(v2.genesis, r.signature);
        TakeWritten(r.signature, []);
        assert r.signature + [] == r.signature;
      case None =>
        TakeWritten(r.nodeId, r.signature);
        TakeWritten(r.signature, []);
        assert r.signature + [] == r.signature;
    }
  }

  lemma HandshakeFlags(h: Handshake)
    ensures var e := HandshakeExtensions(h);
            Flag(e, 1) == h.query.Some? && Flag(e, 2) == h.response.Some? && Flag(e, 4) == h.isV2
  {
  }

  /** The announced size is the size written if and only if the version of the response is announced correctly. */
  lemma HandshakeSizeExact(h: Handshake)
    ensures HandshakeSize(HandshakeExtensions(h)) == |WriteHandshake(h)| <==> HandshakeOk(h)
  {
    HandshakeFlags(h);
  }

  lemma ReadHandshakeWritten(h: Handshake)
    requires HandshakeOk(h)
    ensures ReadHandshake(WriteHandshake(h), HandshakeExtensions(h)) == Some(h)
  {
    HandshakeFlags(h);
    if h.query.Some? {
      TakeWritten(h.query.value, WriteResponse(h.response));
    } else {
      assert WriteHandshake(h) == WriteResponse(h.response);
    }
    if h.response.Some? {
      ReadResponseWritten(h.response.value);
    }
  }

  // ----- telemetry -------------------------------------------------------------------------------------------------------

  datatype Telemetry = Telemetry(known: seq<byte>, unknown: seq<byte>)

  const KNOWN_SIZE: nat := 202
  const SIZE_MASK: nat := 0x3ff

  function TelemetrySize(extensions: u16): nat {
    extensions % 1024
  }

  function WriteTelemetry(data: Option<Telemetry>): seq<byte> {
    match data
    case Some(t) => t.known + t.unknown
    case None => []
  }

  /** The size of the data, cut to 16 bits. */
  function TelemetryExtensions(data: Option<Telemetry>): u16 {
    match data
    case Some(t) => (KNOWN_SIZE + |t.unknown| % 0x10000) % 0x10000
    case None => 0
  }

  /** An outer `None` is a payload that cannot be read, an inner one telemetry without data. */
  function ReadTelemetry(s: seq<byte>, extensions: u16): Option<Option<Telemetry>> {
    var size := TelemetrySize(extensions);
    if size == 0 then Some(None)
    else
      var (known, rest) :- Take(s, KNOWN_SIZE);
      var (unknown, _) :- Take(rest, if size > KNOWN_SIZE then size - KNOWN_SIZE else 0);
      Some(Some(Telemetry(known, unknown)))
  }

  predicate TelemetryBuildable(data: Option<Telemetry>) {
    data.Some? ==> |data.value.known| == KNOWN_SIZE
  }

  predicate TelemetryReadable(data: Option<Telemetry>) {
    data.Some? ==> |data.value.unknown| <= SIZE_MASK - KNOWN_SIZE
  }

  lemma ReadTelemetryWritten(data: Option<Telemetry>)
    requires TelemetryBuildable(data) && TelemetryReadable(data)
    ensures ReadTelemetry(WriteTelemetry(data), TelemetryExtensions(data)) == Some(data)
  {
    if data.Some? {
      var size := |data.value.unknown|;
      assert TelemetrySize(TelemetryExtensions(data)) == KNOWN_SIZE + size by { TelemetrySizeExact(data); }
      TakeWritten(data.value.known, data.value.unknown);
      TakeWritten(data.value.unknown, []);
      assert data.value.unknown + [] == data.value.unknown;
    }
  }

  /** More unknown data than the size field can express is announced with the wrong size. */
  lemma TelemetrySizeExact(data: Option<Telemetry>)
    requires TelemetryBuildable(data)
    ensures TelemetrySize(TelemetryExtensions(data)) == |WriteTelemetry(data)| <==> TelemetryReadable(data)
  {
  }

  // ----- ascending pulls -------------------------------------------------------------------------------------------------

  /** The loop over the frontiers in `AscPullAck::deserialize`. */
  method DeserializeFrontiers(s: seq<byte>) returns (r: Option<seq<Pair>>)
    ensures r == ReadFrontiers(s, 0)
  {
    var frontiers := [];
    var current := ReadPair(s);
    if current.None? {
      return None;
    }
    ghost var unread := s;
    while current.value.0 != NULL_PAIR && |frontiers| < MAX_FRONTIERS
      invariant current.Some? && current == ReadPair(unread)
      invariant ReadFrontiers(s, 0) == Prepend(frontiers, ReadFrontiers(unread, |frontiers|))
      decreases MAX_FRONTIERS - |frontiers|
    {
      var (pair, rest) := current.value;
      ghost var more := ReadFrontiers(rest, |frontiers| + 1);
      if more.Some? {
        Regroup(frontiers, [pair], more.value);
      }
      frontiers := frontiers + [pair];
      current := ReadPair(rest);
      if current.None? {
        return None;
      }
      unread := rest;
    }
    return Some(frontiers);
  }

  /** `BlocksAckPayload::deserialize`. */
  method DeserializeBlocks(s: seq<byte>) returns (r: Option<seq<WireBlock>>)
    ensures r == ReadBlocks(s, 0)
  {
    var rest, blocks := s, [];
    var current := ReadBlock(rest);
    while current.Some?
      invariant current == ReadBlock(rest) && |blocks| <= MAX_BLOCKS
      invariant ReadBlocks(s, 0) == Prepend(blocks, ReadBlocks(rest, |blocks|))
      decreases MAX_BLOCKS - |blocks|
    {
      if |blocks| >= MAX_BLOCKS {
        return None;
      }
      var (block, rest') := current.value;
      ghost var more := ReadBlocks(rest', |blocks| + 1);
      if more.Some? {
        Regroup(blocks, [block], more.value);
      }
      rest, blocks := rest', blocks + [block];
      current := ReadBlock(rest);
    }
    return Some(blocks);
  }

  /** `ConfirmReq::deserialize_roots`: pairs of zeros are skipped, and then missed when the pairs are counted. */
  method DeserializeRoots(s: seq<byte>, extensions: u16) returns (r: Option<seq<Pair>>)
    ensures r == if Count(extensions) == 0 then None else ReadPairs(s, Count(extensions))
  {
    hide ReadPair, Count;
    var count := Count(extensions);
    var rest, roots := s, [];
    var i := 0;
    while i < count
      invariant i <= count && |roots| <= i
      invariant ReadPairs(s, count) ==
                  if |roots| == i then Prepend(roots, ReadPairs(rest, count - i)) else None
    {
      var pair := ReadPair(rest);
      if pair.None? {
        return None;
      }
      ghost var more := ReadPairs(pair.value.1, count - i - 1);
      if more.Some? {
        Regroup(roots, [pair.value.0], more.value);
      }
      if pair.value.0 != NULL_PAIR {
        roots := roots + [pair.value.0];
      }
      rest := pair.value.1;
      i := i + 1;
    }
    if roots == [] || |roots| != count {
      return None;
    }
    return Some(roots);
  }

  datatype Ack = Blocks(blocks: seq<WireBlock>) | AccountInfo(info: seq<byte>) | Frontiers(frontiers: seq<Pair>)

  const ACCOUNT_INFO_SIZE: nat := 144

  predicate AckBuildable(ack: Ack) {
    match ack
    case Blocks(blocks) => |blocks| <= MAX_BLOCKS && forall i | 0 <= i < |blocks| :: IsBlock(blocks[i])
    case AccountInfo(info) => |info| == ACCOUNT_INFO_SIZE
    case Frontiers(_) => true
  }

  predicate AckReadable(ack: Ack) {
    ack.Frontiers? ==> |ack.frontiers| <= MAX_FRONTIERS && NoNull(ack.frontiers)
  }

  function WriteAck(ack: Ack): seq<byte>
    requires AckBuildable(ack)
  {
    match ack
    case Blocks(blocks) => WriteBlocks(blocks)
    case AccountInfo(info) => info
    case Frontiers(frontiers) => WriteFrontiers(frontiers)
  }

  function AckCode(ack: Ack): byte {
    match ack
    case Blocks(_) => 1
    case AccountInfo(_) => 2
    case Frontiers(_) => 3
  }

  function ReadAck(code: byte, s: seq<byte>): Option<Ack> {
    match code
    case 1 =>
      var blocks :- ReadBlocks(s, 0);
      Some(Blocks(blocks))
    case 2 =>
      var (info, _) :- Take(s, ACCOUNT_INFO_SIZE);
      Some(AccountInfo(info))
    case 3 =>
      var frontiers :- ReadFrontiers(s, 0);
      Some(Frontiers(frontiers))
    case _ => None
  }

  lemma ReadAckWritten(ack: Ack)
    requires AckBuildable(ack)
    ensures ReadAck(AckCode(ack), WriteAck(ack)) == Some(ack) <==> AckReadable(ack)
    ensures AckReadable(ack) ==> |WriteAck(ack)| < 0x10000 - 9
  {
    match ack {
      case Blocks(blocks) =>
        ReadBlocksWritten(blocks, 0);
      case AccountInfo(info) =>
        TakeWritten(info, []);
        assert info + [] == info;
      case Frontiers(frontiers) =>
        ReadFrontiersWritten(frontiers, 0);
        WritePairsSize(frontiers);
    }
  }

  datatype Req =
    | BlocksReq(start: B32, count: byte, byBlock: bool)
    | AccountInfoReq(target: B32, byBlock: bool)
    | FrontiersReq(first: B32, limit: u16)

  function HashType(byBlock: bool): byte {
    if byBlock then 1 else 0
  }

  function WriteReq(req: Req): seq<byte> {
    match req
    case BlocksReq(start, count, byBlock) => start + [count, HashType(byBlock)]
    case AccountInfoReq(target, byBlock) => target + [HashType(byBlock)]
    case FrontiersReq(first, limit) => first + [limit / 256, limit % 256]
  }

  function ReqCode(req: Req): byte {
    match req
    case BlocksReq(_, _, _) => 1
    case AccountInfoReq(_, _) => 2
    case FrontiersReq(_, _) => 3
  }

  function ReadReq(code: byte, s: seq<byte>): Option<Req> {
    if code !in {1, 2, 3} then None
    else
      var (first, s1) :- Take(s, 32);
      if code == 3 then
        var (limit, _) :- Take(s1, 2);
        Some(FrontiersReq(first, 256 * (limit[0] as int) + limit[1]))
      else if code == 2 then
        var (kind, _) :- Take(s1, 1);
        if kind[0] <= 1 then Some(AccountInfoReq(first, kind[0] == 1)) else None
      else
        var (kind, _) :- Take(s1, 2);
        if kind[1] <= 1 then Some(BlocksReq(first, kind[0], kind[1] == 1)) else None
  }

  lemma ReadReqWritten(req: Req)
    ensures ReadReq(ReqCode(req), WriteReq(req)) == Some(req)
    ensures |WriteReq(req)| <= 34
  {
  }

  // ----- messages --------------------------------------------------------------------------------------------------------

  datatype Message =
    | Keepalive(peers: seq<byte>)
    | Publish(block: WireBlock, isOriginator: bool, digest: nat)
    | AscPullAck(ackId: nat, ack: Ack)
    | AscPullReq(reqId: nat, req: Req)
    | BulkPull(range: B64, count: nat, ascending: bool)
    | BulkPullAccount(accountAndAmount: seq<byte>, flags: byte)
    | BulkPush
    | ConfirmAck(vote: Vote, isRebroadcasted: bool, voteDigest: nat)
    | ConfirmReq(pairs: seq<Pair>)
    | FrontierReq(startAgeCount: seq<byte>, onlyConfirmed: bool)
    | NodeIdHandshake(handshake: Handshake)
    | TelemetryAck(data: Option<Telemetry>)
    | TelemetryReq

  /** The messages that the constructors of the node accept. */
  predicate Buildable(m: Message) {
    match m
    case Keepalive(peers) => |peers| == 144
    case Publish(block, _, _) => IsBlock(block)
    case AscPullAck(id, ack) => id < Pow256(8) && AckBuildable(ack)
    case AscPullReq(id, _) => id < Pow256(8)
    case BulkPull(_, count, _) => count < Pow256(4)
    case BulkPullAccount(accountAndAmount, flags) => |accountAndAmount| == 48 && flags <= 2
    case ConfirmAck(vote, _, _) => |vote.head| == VOTE_HEAD && |vote.hashes| <= MAX_HASHES
    case ConfirmReq(pairs) => |pairs| <= 255
    case FrontierReq(startAgeCount, _) => |startAgeCount| == 40
    case NodeIdHandshake(_) => true
    case TelemetryAck(data) => TelemetryBuildable(data)
    case BulkPush => true
    case TelemetryReq => true
  }

  /** Exactly the messages among them that survive the wire. */
  predicate Readable(m: Message) {
    match m
    case AscPullAck(_, ack) => AckReadable(ack)
    case ConfirmReq(pairs) => pairs != [] && NoNull(pairs)
    case NodeIdHandshake(handshake) => HandshakeOk(handshake)
    case TelemetryAck(data) => TelemetryReadable(data)
    case _ => true
  }

  function Payload(m: Message): seq<byte>
    requires Buildable(m)
  {
    match m
    case Keepalive(peers) => peers
    case Publish(block, _, _) => block.body
    case AscPullAck(id, ack) => [AckCode(ack)] + (BigEndian(id, 8) + WriteAck(ack))
    case AscPullReq(id, req) => [ReqCode(req)] + (BigEndian(id, 8) + WriteReq(req))
    case BulkPull(range, count, _) => range + (if count > 0 then [0] + LittleEndian(count, 4) + [0, 0, 0] else [])
    case BulkPullAccount(accountAndAmount, flags) => accountAndAmount + [flags]
    case ConfirmAck(vote, _, _) => vote.head + WriteHashes(vote.hashes)
    case ConfirmReq(pairs) => WritePairs(pairs)
    case FrontierReq(startAgeCount, _) => startAgeCount
    case NodeIdHandshake(handshake) => WriteHandshake(handshake)
    case TelemetryAck(data) => WriteTelemetry(data)
    case BulkPush => []
    case TelemetryReq => []
  }

  /** `header_extensions`; the payload length is cut to 16 bits before it is used. */
  function Extensions(m: Message): u16
    requires Buildable(m)
  {
    match m
    case Publish(block, isOriginator, _) => block.blockType * 256 + FlagBit(4, isOriginator)
    case AscPullAck(_, _) => (|Payload(m)| % 0x10000 + 0x10000 - 9) % 0x10000
    case AscPullReq(_, _) => (|Payload(m)| % 0x10000 + 0x10000 - 9) % 0x10000
    case BulkPull(_, count, ascending) => FlagBit(1, count > 0) + FlagBit(2, ascending)
    case ConfirmAck(vote, isRebroadcasted, _) =>
      CountReads(|vote.hashes|, if isRebroadcasted then 2 else 0, 0);
      CountBits(|vote.hashes|) + FlagBit(4, isRebroadcasted)
    case ConfirmReq(pairs) =>
      CountReads(|pairs|, 0, 1);
      CountBits(|pairs|) + 256
    case FrontierReq(_, onlyConfirmed) => FlagBit(2, onlyConfirmed)
    case NodeIdHandshake(handshake) => HandshakeExtensions(handshake)
    case TelemetryAck(data) => TelemetryExtensions(data)
    case _ => 0
  }

  datatype MessageType =
    | InvalidT | NotATypeT | KeepaliveT | PublishT | ConfirmReqT | ConfirmAckT | BulkPullT | BulkPushT | FrontierReqT
    | NodeIdHandshakeT | BulkPullAccountT | TelemetryReqT | TelemetryAckT | AscPullReqT | AscPullAckT

  function TypeOf(m: Message): MessageType {
    match m
    case Keepalive(_) => KeepaliveT
    case Publish(_, _, _) => PublishT
    case AscPullAck(_, _) => AscPullAckT
    case AscPullReq(_, _) => AscPullReqT
    case BulkPull(_, _, _) => BulkPullT
    case BulkPullAccount(_, _) => BulkPullAccountT
    case BulkPush => BulkPushT
    case ConfirmAck(_, _, _) => ConfirmAckT
    case ConfirmReq(_) => ConfirmReqT
    case FrontierReq(_, _) => FrontierReqT
    case NodeIdHandshake(_) => NodeIdHandshakeT
    case TelemetryAck(_) => TelemetryAckT
    case TelemetryReq => TelemetryReqT
  }

  /** `MessageHeader::payload_length`. */
  function PayloadLength(t: MessageType, extensions: u16): nat {
    match t
    case KeepaliveT => 144
    case PublishT => BlockSize(extensions / 256 % 16)
    case ConfirmReqT => ConfirmReqSize(extensions)
    case ConfirmAckT => VOTE_HEAD + 32 * Count(extensions)
    case BulkPullT => 64 + (if Flag(extensions, 1) then 8 else 0)
    case BulkPushT => 0
    case TelemetryReqT => 0
    case FrontierReqT => 40
    case NodeIdHandshakeT => HandshakeSize(extensions)
    case BulkPullAccountT => 49
    case TelemetryAckT => TelemetrySize(extensions)
    case AscPullReqT => 9 + extensions
    case AscPullAckT => 9 + extensions
    case InvalidT => 0
    case NotATypeT => 0
  }

  function ReadBulkPull(s: seq<byte>, extensions: u16): Option<Message> {
    var (range, rest) :- Take(s, 64);
    if Flag(extensions, 1) then
      var (params, _) :- Take(rest, 8);
      if params[0] != 0 then None else Some(BulkPull(range, FromLittleEndian(params[1..5]), Flag(extensions, 2)))
    else Some(BulkPull(range, 0, Flag(extensions, 2)))
  }

  function ReadId(s: seq<byte>): Option<(byte, nat, seq<byte>)> {
    var (code, s1) :- Take(s, 1);
    if code[0] !in {1, 2, 3} then None
    else
      var (id, rest) :- Take(s1, 8);
      Some((code[0], FromBigEndian(id), rest))
  }

  /** `Message::deserialize`. */
  function Deserialize(payload: seq<byte>, t: MessageType, extensions: u16, digest: nat): Option<Message> {
    match t
    case KeepaliveT =>
      var (peers, _) :- Take(payload, 144);
      Some(Keepalive(peers))
    case PublishT =>
      var (block, _) :- ReadBlockBody(extensions / 256 % 16, payload);
      Some(Publish(block, Flag(extensions, 4), digest))
    case AscPullAckT =>
      var (code, id, rest) :- ReadId(payload);
      var ack :- ReadAck(code, rest);
      Some(AscPullAck(id, ack))
    case AscPullReqT =>
      var (code, id, rest) :- ReadId(payload);
      var req :- ReadReq(code, rest);
      Some(AscPullReq(id, req))
    case BulkPullT => ReadBulkPull(payload, extensions)
    case BulkPullAccountT =>
      var (accountAndAmount, rest) :- Take(payload, 48);
      var (flags, _) :- Take(rest, 1);
      if flags[0] <= 2 then Some(BulkPullAccount(accountAndAmount, flags[0])) else None
    case BulkPushT => Some(BulkPush)
    case ConfirmAckT =>
      var vote :- ReadVote(payload);
      Some(ConfirmAck(vote, Flag(extensions, 4), digest))
    case ConfirmReqT =>
      var pairs :- ReadPairs(payload, Count(extensions));
      if pairs == [] then None else Some(ConfirmReq(pairs))
    case FrontierReqT =>
      var (startAgeCount, _) :- Take(payload, 40);
      Some(FrontierReq(startAgeCount, Flag(extensions, 2)))
    case NodeIdHandshakeT =>
      var handshake :- ReadHandshake(payload, extensions);
      Some(NodeIdHandshake(handshake))
    case TelemetryAckT =>
      var data :- ReadTelemetry(payload, extensions);
      Some(TelemetryAck(data))
    case TelemetryReqT => Some(TelemetryReq)
    case InvalidT => None
    case NotATypeT => None
  }

  /** A message as the receiver sees it: with the digest that the receiver computed. */
  function WithDigest(m: Message, digest: nat): Message {
    match m
    case Publish(block, isOriginator, _) => Publish(block, isOriginator, digest)
    case ConfirmAck(vote, isRebroadcasted, _) => ConfirmAck(vote, isRebroadcasted, digest)
    case _ => m
  }

  /** The header announces exactly the bytes that are written, and reading them gives the message back. */
  ghost predicate RoundTrips(m: Message, digest: nat)
    requires Buildable(m)
  {
    && PayloadLength(TypeOf(m), Extensions(m)) == |Payload(m)|
    && Deserialize(Payload(m), TypeOf(m), Extensions(m), digest) == Some(WithDigest(m, digest))
  }

  lemma TakeAll(a: seq<byte>)
    ensures Take(a, |a|) == Some((a, []))
  {
    assert a[..|a|] == a && a[|a|..] == [];
  }

  lemma ReadIdWritten(code: byte, id: nat, rest: seq<byte>)
    requires code in {1, 2, 3} && id < Pow256(8)
    ensures ReadId([code] + (BigEndian(id, 8) + rest)) == Some((code, id, rest))
  {
    TakeWritten([code], BigEndian(id, 8) + rest);
    TakeWritten(BigEndian(id, 8), rest);
    BigEndianReads(id, 8);
  }

  lemma ReadBulkPullWritten(m: Message, digest: nat)
    requires m.BulkPull? && Buildable(m)
    ensures RoundTrips(m, digest)
  {
    var e := Extensions(m);
    assert Flag(e, 1) == (m.count > 0) && Flag(e, 2) == m.ascending;
    if m.count > 0 {
      var params := [0] + LittleEndian(m.count, 4) + [0, 0, 0];
      TakeWritten(m.range, params);
      TakeAll(params);
      assert params[1..5] == LittleEndian(m.count, 4);
      LittleEndianReads(m.count, 4);
    } else {
      TakeWritten(m.range, []);
    }
  }

  lemma ReadConfirmAckWritten(m: Message, digest: nat)
    requires m.ConfirmAck? && Buildable(m)
    ensures RoundTrips(m, digest)
  {
    hide Count, CountBits, ReadVote, WriteHashes, Flag;
    var low := if m.isRebroadcasted then 2 else 0;
    CountReads(|m.vote.hashes|, low, 0);
    ThirdBit(Extensions(m), low);
    ReadVoteWritten(m.vote);
  }

  lemma ThirdBit(extensions: u16, low: nat)
    requires extensions / 2 % 8 == low && low in {0, 2}
    ensures Flag(extensions, 4) == (low == 2)
  {
    var q, e := extensions / 2 / 8, extensions % 2;
    assert extensions == 4 * (4 * q + low / 2) + e;
    assert extensions / 4 == 4 * q + low / 2;
  }

  lemma ReadConfirmReqWritten(m: Message, digest: nat)
    requires m.ConfirmReq? && Buildable(m)
    ensures RoundTrips(m, digest) <==> Readable(m)
  {
    hide Count, CountBits, ReadPairs, WritePairs;
    CountReads(|m.pairs|, 0, 1);
    WritePairsSize(m.pairs);
    ReadPairsWritten(m.pairs, []);
    assert WritePairs(m.pairs) + [] == WritePairs(m.pairs);
  }

  lemma ReadAscPullAckWritten(m: Message, digest: nat)
    requires m.AscPullAck? && Buildable(m)
    ensures RoundTrips(m, digest) <==> Readable(m)
  {
    hide ReadAck, WriteAck, ReadId, BigEndian, AckBuildable, AckReadable;
    ReadAckWritten(m.ack);
    ReadIdWritten(AckCode(m.ack), m.ackId, WriteAck(m.ack));
  }

  lemma ReadAscPullReqWritten(m: Message, digest: nat)
    requires m.AscPullReq? && Buildable(m)
    ensures RoundTrips(m, digest)
  {
    hide ReadReq, WriteReq, ReadId, BigEndian;
    ReadReqWritten(m.req);
    ReadIdWritten(ReqCode(m.req), m.reqId, WriteReq(m.req));
  }

  lemma ReadNodeIdHandshakeWritten(m: Message, digest: nat)
    requires m.NodeIdHandshake? && Buildable(m)
    ensures RoundTrips(m, digest) <==> Readable(m)
  {
    hide ReadHandshake, WriteHandshake, HandshakeExtensions, HandshakeSize;
    HandshakeSizeExact(m.handshake);
    if Readable(m) {
      ReadHandshakeWritten(m.handshake);
    }
  }

  lemma ReadTelemetryAckWritten(m: Message, digest: nat)
    requires m.TelemetryAck? && Buildable(m)
    ensures RoundTrips(m, digest) <==> Readable(m)
  {
    hide ReadTelemetry, WriteTelemetry, TelemetryExtensions, TelemetrySize;
    TelemetrySizeExact(m.data);
    if Readable(m) {
      ReadTelemetryWritten(m.data);
    }
  }

  lemma ReadPlainWritten(m: Message, digest: nat)
    requires m.Keepalive? || m.Publish? || m.BulkPullAccount? || m.FrontierReq? || m.BulkPush? || m.TelemetryReq?
    requires Buildable(m)
    ensures RoundTrips(m, digest)
  {
    match m {
      case Keepalive(peers) => TakeAll(peers);
      case Publish(block, _, _) => TakeAll(block.body);
      case BulkPullAccount(accountAndAmount, flags) => TakeWritten(accountAndAmount, [flags]);
      case FrontierReq(startAgeCount, _) => TakeAll(startAgeCount);
      case BulkPush =>
      case TelemetryReq =>
    }
  }

  /** A message that the node can build survives the wire if and only if it is readable. */
  lemma MessageRoundTrip(m: Message, digest: nat)
    requires Buildable(m)
    ensures RoundTrips(m, digest) <==> Readable(m)
  {
    hide Buildable, RoundTrips;
    match m {
      case AscPullAck(_, _) => ReadAscPullAckWritten(m, digest);
      case AscPullReq(_, _) => ReadAscPullReqWritten(m, digest);
      case BulkPull(_, _, _) => ReadBulkPullWritten(m, digest);
      case ConfirmAck(_, _, _) => ReadConfirmAckWritten(m, digest);
      case ConfirmReq(_) => ReadConfirmReqWritten(m, digest);
      case NodeIdHandshake(_) => ReadNodeIdHandshakeWritten(m, digest);
      case TelemetryAck(_) => ReadTelemetryAckWritten(m, digest);
      case _ => ReadPlainWritten(m, digest);
    }
  }
}
