/** The node id handshake: each side proves that it owns its node id by signing the cookie that the other side has sent. */
module HandshakeProcess {
  import opened Wrappers
  import opened Bytes
  import opened Codec
  import opened Addresses
  import opened SynCookies

  type Key = nat

  /** Signatures.  All that is assumed of them is that what was signed with a key verifies under its node id. */
  datatype Crypto = Crypto(nodeId: Key -> B32, sign: (Key, seq<byte>) -> B64, verify: (B32, seq<byte>, B64) -> bool)

  ghost predicate Sound(crypto: Crypto) {
    forall key: Key, data: seq<byte> :: crypto.verify(crypto.nodeId(key), data, crypto.sign(key, data))
  }

  /** What a node brings into every handshake. */
  datatype Node = Node(crypto: Crypto, key: Key, genesis: B32)

  /** What is drawn at random or read from the clock during one step. */
  datatype Chance = Chance(cookie: CookieInfo, salt: B32)

  datatype HandshakeError =
    OwnNodeId | InvalidGenesis | MissingCookie | InvalidSignature | EmptyResponse | MultipleQueries

  function DataToSign(v2: Option<V2Payload>, cookie: B32): seq<byte> {
    match v2
    case Some(p) => cookie + p.salt + p.genesis
    case None => cookie
  }

  predicate SignatureOk(crypto: Crypto, r: Response, cookie: B32) {
    crypto.verify(r.nodeId, DataToSign(r.v2, cookie), r.signature)
  }

  function PrepareResponse(node: Node, cookie: B32, isV2: bool, salt: B32): Response {
    var v2 := if isV2 then Some(V2Payload(salt, node.genesis)) else None;
    Response(node.crypto.nodeId(node.key), node.crypto.sign(node.key, DataToSign(v2, cookie)), v2)
  }

  /** The answer to a query: a response, and a query of one's own if there is a cookie for it. */
  function CreateResponse(node: Node, cookie: B32, isV2: bool, salt: B32, ownQuery: Option<B32>): Handshake {
    var response := PrepareResponse(node, cookie, isV2, salt);
    Handshake(ownQuery, Some(response), ownQuery.Some? || response.v2.Some?)
  }

  /** The checks of a response, before its cookie is taken out of the table and after. */
  function CheckResponse(node: Node, r: Response, cookie: Option<B32>): Option<HandshakeError> {
    if r.nodeId == node.crypto.nodeId(node.key) then Some(OwnNodeId)
    else if r.v2.Some? && r.v2.value.genesis != node.genesis then Some(InvalidGenesis)
    else if cookie.None? then Some(MissingCookie)
    else if !SignatureOk(node.crypto, r, cookie.value) then Some(InvalidSignature)
    else None
  }

  /** The result of `process_handshake`: the verified node id of the peer, and the message to send back. */
  datatype Processed = Processed(nodeId: Option<B32>, reply: Option<Handshake>)

  /** A handshake in progress on one side. */
  datatype Side = Side(received: bool, cookies: Cookies)

  ghost function TakenCookie(c: Cookies, peer: Endpoint): Option<B32> {
    if peer in c.byEndpoint then Some(c.byEndpoint[peer].cookie) else None
  }

  ghost function WithoutCookie(c: Cookies, peer: Endpoint): Cookies {
    if peer in c.byEndpoint then Removed(c, peer) else c
  }

  ghost predicate ReachesCookie(node: Node, r: Response) {
    r.nodeId != node.crypto.nodeId(node.key) && !(r.v2.Some? && r.v2.value.genesis != node.genesis)
  }

  /** `process_handshake` as a function of the state of one side. */
  ghost function Process(node: Node, side: Side, m: Handshake, peer: Endpoint, chance: Chance, max: nat)
      : (Result<Processed, HandshakeError>, Side)
  {
    if m.query.None? && m.response.None? then (Err(EmptyResponse), side)
    else if m.query.Some? && side.received then (Err(MultipleQueries), side)
    else
      var (ownQuery, cookies) :=
        if m.query.Some? then Assigned(side.cookies, peer, chance.cookie, max) else (None, side.cookies);
      var reply := if m.query.None? then None
                   else Some(CreateResponse(node, m.query.value, m.isV2, chance.salt, ownQuery));
      if m.response.None? then (Ok(Processed(None, reply)), Side(true, cookies))
      else
        var r := m.response.value;
        var error := CheckResponse(node, r, TakenCookie(cookies, peer));
        var after := if ReachesCookie(node, r) then WithoutCookie(cookies, peer) else cookies;
        (if error.Some? then Err(error.value) else Ok(Processed(Some(r.nodeId), reply)), Side(true, after))
  }

  // ----- what a handshake guarantees -----------------------------------------------------------------------------------------

  /** The cookie that a response is checked against: the one that waits for the peer, or else the one just issued to it. */
  ghost function WaitingCookie(side: Side, m: Handshake, peer: Endpoint, chance: Chance, max: nat): Option<B32> {
    if peer in side.cookies.byEndpoint then Some(side.cookies.byEndpoint[peer].cookie)
    else if m.query.Some? then Assigned(side.cookies, peer, chance.cookie, max).0
    else None
  }

  /** A node id is accepted if and only if it is not one's own, the genesis matches and the response signs the waiting
      cookie, in a message that is not a second query; the cookie is then used up. */
  lemma AcceptedIsVerified(node: Node, side: Side, m: Handshake, peer: Endpoint, chance: Chance, max: nat)
    ensures var (r, side') := Process(node, side, m, peer, chance, max);
            var cookie := WaitingCookie(side, m, peer, chance, max);
            && (r.Ok? && r.value.nodeId.Some? <==>
                  && m.response.Some? && !(m.query.Some? && side.received)
                  && m.response.value.nodeId != node.crypto.nodeId(node.key)
                  && (m.response.value.v2.Some? ==> m.response.value.v2.value.genesis == node.genesis)
                  && cookie.Some? && SignatureOk(node.crypto, m.response.value, cookie.value))
            && (r.Ok? && r.value.nodeId.Some? ==>
                  r.value.nodeId.value == m.response.value.nodeId && peer !in side'.cookies.byEndpoint)
  {
  }

  /** One handshake from the peer, with what is drawn while it is processed. */
  datatype Step = Step(m: Handshake, chance: Chance)

  /** How many replies a side generates over a run. */
  ghost function Replies(node: Node, side: Side, peer: Endpoint, max: nat, steps: seq<Step>): nat
    decreases |steps|
  {
    if steps == [] then 0
    else
      var (r, side') := Process(node, side, steps[0].m, peer, steps[0].chance, max);
      (if r.Ok? && r.value.reply.Some? then 1 else 0) + Replies(node, side', peer, max, steps[1..])
  }

  /** Whatever the peer sends, a side answers at most one query, and none after the first valid handshake. */
  lemma {:induction false} OneReply(node: Node, side: Side, peer: Endpoint, max: nat, steps: seq<Step>)
    ensures Replies(node, side, peer, max, steps) <= if side.received then 0 else 1
    decreases |steps|
  {
    if steps != [] {
      OneReply(node, Process(node, side, steps[0].m, peer, steps[0].chance, max).1, peer, max, steps[1..]);
    }
  }

  /** A reply can be read by the peer if and only if the query was of version 2 or no cookie was left for a query of one's
      own: otherwise it is announced as version 2 but carries a response of version 1. */
  lemma ReplyReadable(node: Node, cookie: B32, isV2: bool, salt: B32, ownQuery: Option<B32>)
    ensures HandshakeOk(CreateResponse(node, cookie, isV2, salt, ownQuery)) <==> isV2 || ownQuery.None?
    ensures HandshakeOk(CreateResponse(node, cookie, isV2, salt, ownQuery)) <==>
              var h := CreateResponse(node, cookie, isV2, salt, ownQuery);
              HandshakeSize(HandshakeExtensions(h)) == |WriteHandshake(h)|
  {
    HandshakeSizeExact(CreateResponse(node, cookie, isV2, salt, ownQuery));
  }

  /** Seen from outside: the reply to a query is well formed if and only if the query was of version 2, or the peer already
      has a cookie, or there is no room for one. */
  lemma ReplyWellFormed(node: Node, side: Side, m: Handshake, peer: Endpoint, chance: Chance, max: nat)
    ensures var (r, _) := Process(node, side, m, peer, chance, max);
            r.Ok? && r.value.reply.Some? ==>
              (HandshakeOk(r.value.reply.value) <==>
                 m.isV2 || peer in side.cookies.byEndpoint || CountFor(side.cookies.perIp, peer.ip) >= max)
  {
    hide HandshakeOk, CheckResponse, CreateResponse, WithoutCookie, ReachesCookie;
    if m.query.Some? {
      ReplyReadable(node, m.query.value, m.isV2, chance.salt, Assigned(side.cookies, peer, chance.cookie, max).0);
    }
  }

  lemma SignedVerifies(node: Node, cookie: B32, isV2: bool, salt: B32)
    requires Sound(node.crypto)
    ensures SignatureOk(node.crypto, PrepareResponse(node, cookie, isV2, salt), cookie)
  {
  }

  function QueryMessage(cookie: B32): Handshake {
    Handshake(Some(cookie), None, true)
  }

  /** A cookie that proves a node id, and its number. */
  datatype Proof = Proof(number: nat, cookie: B32)

  /** The cookie was issued to this peer and is not in the table any more. */
  ghost predicate Taken(records: Records, peer: Endpoint, proof: Proof) {
    proof.number in records.taken && proof.number in records.issued && records.issued[proof.number] == (peer, proof.cookie)
  }

  /** ... and it was taken out between two moments, so that nothing was proved with it before. */
  ghost predicate NewlyTaken(before: Records, after: Records, peer: Endpoint, proof: Proof) {
    Taken(after, peer, proof) && proof.number !in before.taken
  }

  // ----- the imperative form ---------------------------------------------------------------------------------------------------

  class HandshakeProcess {
    const node: Node
    const synCookies: SynCookies
    var handshakeReceived: bool

    constructor (node: Node, synCookies: SynCookies)
      ensures this.node == node && this.synCookies == synCookies && !handshakeReceived
    {
      this.node, this.synCookies := node, synCookies;
      handshakeReceived := false;
    }

    ghost function Value(): Side
      reads this, synCookies
    {
      Side(handshakeReceived, synCookies.Value())
    }

    method InitiateHandshake(peer: Endpoint, chance: Chance) returns (query: Option<Handshake>)
      requires synCookies.Valid()
      modifies synCookies
      ensures synCookies.Valid() && Grows(old(synCookies.records), synCookies.records)
      ensures synCookies.records.taken == old(synCookies.records).taken
      ensures var (cookie, cookies) := Assigned(old(synCookies.Value()), peer, chance.cookie, synCookies.maxPerIp);
              && synCookies.Value() == cookies
              && query == if cookie.None? then None else Some(QueryMessage(cookie.value))
    {
      var cookie := synCookies.Assign(peer, chance.cookie);
      if cookie.None? {
        return None;
      }
      return Some(Handshake(cookie, None, true));
    }

    /** On success, `proof` is the cookie that was taken out of the table for this. */
    method VerifyResponse(response: Response, peer: Endpoint) returns (error: Option<HandshakeError>, ghost proof: Proof)
      requires synCookies.Valid()
      modifies synCookies`byEndpoint, synCookies`perIp, synCookies`records
      ensures synCookies.Valid() && Grows(old(synCookies.records), synCookies.records)
      ensures error == CheckResponse(node, response, TakenCookie(old(synCookies.Value()), peer))
      ensures error.None? ==> NewlyTaken(old(synCookies.records), synCookies.records, peer, proof)
      ensures error.None? ==> SignatureOk(node.crypto, response, proof.cookie)
      ensures synCookies.Value() ==
                if ReachesCookie(node, response) then WithoutCookie(old(synCookies.Value()), peer)
                else old(synCookies.Value())
    {
      hide Counted;
      GrowsSame(synCookies.records);
      proof := Proof(0, Zeros(32));
      if response.nodeId == node.crypto.nodeId(node.key) {
        return Some(OwnNodeId), proof;
      }
      if response.v2.Some? && response.v2.value.genesis != node.genesis {
        return Some(InvalidGenesis), proof;
      }
      var cookie := synCookies.Cookie(peer);
      if cookie.None? {
        return Some(MissingCookie), proof;
      }
      if !SignatureOk(node.crypto, response, cookie.value) {
        return Some(InvalidSignature), proof;
      }
      return None, Proof(old(synCookies.records).live[peer], cookie.value);
    }

    method ProcessHandshake(m: Handshake, peer: Endpoint, chance: Chance)
        returns (result: Result<Processed, HandshakeError>, ghost proof: Proof)
      requires synCookies.Valid()
      modifies this, synCookies
      ensures synCookies.Valid() && Grows(old(synCookies.records), synCookies.records)
      ensures (result, Value()) == Process(node, old(Value()), m, peer, chance, synCookies.maxPerIp)
      // A node id is verified with a cookie that was issued to this peer and taken out of the table for this.
      ensures result.Ok? && result.value.nodeId.Some? ==>
                && NewlyTaken(old(synCookies.records), synCookies.records, peer, proof)
                && m.response.Some? && SignatureOk(node.crypto, m.response.value, proof.cookie)
    {
      hide Counted, RecordsOk, SignatureOk;
      GrowsSame(synCookies.records);
      proof := Proof(0, Zeros(32));
      if m.query.None? && m.response.None? {
        return Err(EmptyResponse), proof;
      }
      if m.query.Some? && handshakeReceived {
        return Err(MultipleQueries), proof;
      }
      handshakeReceived := true;
      var reply := None;
      if m.query.Some? {
        var ownQuery := synCookies.Assign(peer, chance.cookie);
        reply := Some(CreateResponse(node, m.query.value, m.isV2, chance.salt, ownQuery));
      }
      if m.response.Some? {
        ghost var before := synCookies.records;
        var error;
        error, proof := VerifyResponse(m.response.value, peer);
        GrowsConcat(old(synCookies.records), before, synCookies.records);
        if error.Some? {
          return Err(error.value), proof;
        }
        return Ok(Processed(Some(m.response.value.nodeId), reply)), proof;
      }
      return Ok(Processed(None, reply)), proof;
    }
  }
}
