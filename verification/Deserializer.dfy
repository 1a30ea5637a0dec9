/** The stateful objects of the wire layer: the duplicate filter, the deserializer and the serializer. */
module Deserializer {
  import opened Wrappers
  import opened Bytes
  import opened Messages
  import opened Codec
  import opened StreamParser

  // ----- the duplicate filter ----------------------------------------------------------------------------------------------

  const DEFAULT_ENTRY: Entry := Entry(0, 0)

  /** `clear`: forgets a digest. */
  function Cleared(f: Filter, digest: nat): Filter
    requires f.items != []
  {
    if f.Contains(digest) then f.(items := f.items[digest % |f.items| := DEFAULT_ENTRY]) else f
  }

  /** A slot remembers the last digest applied to it, and nothing else changes. */
  lemma ApplyRemembers(f: Filter, applied: nat, digest: nat)
    requires f.items != []
    ensures f.Apply(applied).Contains(digest) <==>
              if applied % |f.items| == digest % |f.items| then applied == digest else f.Contains(digest)
  {
  }

  /** The last of the digests that went to the slot of `digest`, if there was any. */
  ghost predicate LastInSlot(applied: seq<nat>, size: nat, digest: nat, before: bool)
    requires size > 0
  {
    if applied == [] then before
    else if applied[|applied| - 1] % size == digest % size then applied[|applied| - 1] == digest
    else LastInSlot(applied[..|applied| - 1], size, digest, before)
  }

  function ApplyAll(f: Filter, applied: seq<nat>): (f': Filter)
    requires f.items != []
    ensures |f'.items| == |f.items|
  {
    if applied == [] then f else ApplyAll(f, applied[..|applied| - 1]).Apply(applied[|applied| - 1])
  }

  /** Over any sequence of digests: a digest is reported as a duplicate exactly when its slot saw it last. */
  lemma {:induction false} FilterHistory(f: Filter, applied: seq<nat>, digest: nat)
    requires f.items != []
    ensures ApplyAll(f, applied).Contains(digest) <==> LastInSlot(applied, |f.items|, digest, f.Contains(digest))
  {
    if applied != [] {
      FilterHistory(f, applied[..|applied| - 1], digest);
      ApplyRemembers(ApplyAll(f, applied[..|applied| - 1]), applied[|applied| - 1], digest);
    }
  }

  /** A cleared digest is gone, except that an empty slot looks like digest zero until the first epoch has aged. */
  lemma ClearForgets(f: Filter, digest: nat)
    requires f.items != []
    ensures Cleared(f, digest).Contains(digest) <==> f.Contains(digest) && digest == 0 && f.ageCutoff >= f.epoch
  {
  }

  class NetworkFilter {
    const items: array<Entry>
    const ageCutoff: nat
    var epoch: nat

    constructor (size: nat, ageCutoff: nat)
      requires size > 0
      ensures fresh(items) && items.Length == size
      ensures Value() == Filter(seq(size, _ => DEFAULT_ENTRY), ageCutoff, 0)
    {
      items := new Entry[size](_ => DEFAULT_ENTRY);
      this.ageCutoff := ageCutoff;
      epoch := 0;
    }

    ghost function Value(): Filter
      reads this, items
    {
      Filter(items[..], ageCutoff, epoch)
    }

    method ApplyDigest(digest: nat) returns (existed: bool)
      requires items.Length > 0
      modifies items
      ensures existed == old(Value()).Contains(digest)
      ensures Value() == old(Value()).Apply(digest)
    {
      var index := digest % items.Length;
      existed := items[index].digest == digest && items[index].epoch + ageCutoff >= epoch;
      if !existed {
        items[index] := Entry(digest, epoch);
      }
    }

    method Clear(digest: nat)
      requires items.Length > 0
      modifies items
      ensures Value() == Cleared(old(Value()), digest)
    {
      var index := digest % items.Length;
      if items[index].digest == digest && items[index].epoch + ageCutoff >= epoch {
        items[index] := DEFAULT_ENTRY;
      }
    }
  }

  // ----- the deserializer ----------------------------------------------------------------------------------------------------

  class MessageDeserializer {
    var buffer: seq<byte>
    var currentHeader: Option<Header>
    const filter: NetworkFilter?
    const setup: Setup

    constructor (setup: Setup, filter: NetworkFilter?)
      requires filter != null ==> filter.items.Length > 0
      ensures this.filter == filter && this.setup == setup && Valid()
      ensures Value() == StreamParser.State([], None, if filter == null then None else Some(filter.Value()))
    {
      this.setup, this.filter := setup, filter;
      buffer, currentHeader := [], None;
    }

    ghost function Footprint(): set<object> {
      {this} + (if filter == null then {} else {filter, filter.items})
    }

    ghost predicate Valid() {
      filter != null ==> filter.items.Length > 0
    }

    ghost function Value(): (s: StreamParser.State)
      reads Footprint()
      ensures Valid() ==> FilterOk(s.filter)
    {
      StreamParser.State(buffer, currentHeader, if filter == null then None else Some(filter.Value()))
    }

    method Push(data: seq<byte>)
      modifies `buffer
      ensures Value() == StreamParser.Push(old(Value()), data)
    {
      buffer := buffer + data;
    }

    /** The digest of a payload that is not a duplicate. */
    method FilterDuplicates(t: MessageType, payload: seq<byte>) returns (r: Result<nat, ParseError>)
      requires Valid()
      modifies if filter == null then {} else {filter.items}
      ensures r == Digest(setup, t, payload, old(Value()).filter)
      ensures Value() == old(Value()).(filter := NextFilter(setup, t, payload, old(Value()).filter))
    {
      if (t == PublishT || t == ConfirmAckT) && filter != null {
        var digest := setup.hash(payload);
        var existed := filter.ApplyDigest(digest);
        if existed {
          return Err(if t == ConfirmAckT then DuplicateConfirmAckMessage else DuplicatePublishMessage);
        }
        return Ok(digest);
      }
      return Ok(0);
    }

    method TryPayload(header: Header) returns (outcome: Option<Outcome>)
      requires Valid() && currentHeader == Some(header)
      modifies `buffer, `currentHeader, if filter == null then {} else {filter.items}
      ensures Try(outcome, Value()) == StreamParser.TryPayload(setup, header, old(Value()))
    {
      var n := HeaderPayload(header);
      if n > 0 && |buffer| < n {
        return None;
      }
      currentHeader := None;
      var payload := buffer[..n];
      buffer := buffer[n..];
      var digest := FilterDuplicates(header.messageType, payload);
      if digest.Err? {
        return Some(Err(digest.error));
      }
      var message := Deserialize(payload, header.messageType, header.extensions, digest.value);
      if message.None? {
        return Some(Err(InvalidMessage(header.messageType)));
      }
      return Some(Ok(Received(message.value, header.protocol)));
    }

    method TryDeserialize() returns (outcome: Option<Outcome>)
      requires Valid()
      modifies `buffer, `currentHeader, if filter == null then {} else {filter.items}
      ensures Try(outcome, Value()) == StreamParser.TryDeserialize(setup, old(Value()))
    {
      if currentHeader.Some? {
        outcome := TryPayload(currentHeader.value);
        return;
      }
      if |buffer| < HEADER_SIZE {
        return None;
      }
      var headerBytes := buffer[..HEADER_SIZE];
      buffer := buffer[HEADER_SIZE..];
      var header := ReadHeader(headerBytes);
      if header.None? {
        return Some(Err(InvalidHeader));
      }
      var invalid := ValidateHeader(header.value, setup.protocol);
      if invalid.Some? {
        return Some(Err(invalid.value));
      }
      currentHeader := Some(header.value);
      outcome := TryPayload(header.value);
    }

    /** The loop of the receiver: everything that can be read after new data has arrived. */
    method Receive(data: seq<byte>) returns (outcomes: seq<Outcome>)
      requires Valid()
      modifies `buffer, `currentHeader, if filter == null then {} else {filter.items}
      ensures Drained(outcomes, Value()) == Drain(setup, StreamParser.Push(old(Value()), data))
    {
      hide StreamParser.TryDeserialize, NetworkFilter.Value, Size;
      Push(data);
      ghost var start := Value();
      outcomes := [];
      var outcome := TryDeserialize();
      ghost var before := start;
      while outcome.Some?
        invariant FilterOk(before.filter) && Try(outcome, Value()) == StreamParser.TryDeserialize(setup, before)
        invariant Drain(setup, start) ==
                    Drained(outcomes + Drain(setup, before).outcomes, Drain(setup, before).state)
        decreases Size(before)
      {
        TryShrinks(setup, before);
        Regroup(outcomes, [outcome.value], Drain(setup, Value()).outcomes);
        outcomes := outcomes + [outcome.value];
        before := Value();
        outcome := TryDeserialize();
      }
    }
  }

  // ----- the serializer --------------------------------------------------------------------------------------------------------

  lemma WroteOne(s: seq<byte>, was: seq<byte>, start: nat, bytes: seq<byte>, i: nat)
    requires i < |bytes| && start + |bytes| <= |was| && s == was[..start] + bytes[..i] + was[start + i..]
    ensures s[start + i := bytes[i]] == was[..start] + bytes[..i + 1] + was[start + i + 1..]
  {
  }

  class MessageSerializer {
    const protocol: Protocol
    const buffer: array<byte>

    constructor (protocol: Protocol, size: nat)
      ensures this.protocol == protocol && buffer.Length == size && fresh(buffer)
    {
      this.protocol := protocol;
      buffer := new byte[size](_ => 0);
    }

    /** Copies `bytes` into the buffer, from position `start` on. */
    method Write(start: nat, bytes: seq<byte>)
      requires start + |bytes| <= buffer.Length
      modifies buffer
      ensures buffer[..] == old(buffer[..start]) + bytes + old(buffer[start + |bytes|..])
    {
      var i := 0;
      while i < |bytes|
        invariant i <= |bytes|
        invariant buffer[..] == old(buffer[..start]) + bytes[..i] + old(buffer[start + i..])
      {
        ghost var before := buffer[..];
        buffer[start + i] := bytes[i];
        WroteOne(before, old(buffer[..]), start, bytes, i);
        i := i + 1;
      }
      assert bytes[..|bytes|] == bytes;
    }

    /** Writes the payload first, and then the header in front of it. */
    method Serialize(m: Message) returns (length: nat)
      requires Buildable(m) && HEADER_SIZE + |Payload(m)| <= buffer.Length
      modifies buffer
      ensures length <= buffer.Length && buffer[..length] == Encode(protocol, m)
    {
      hide Payload, WriteHeader, HeaderOf, Buildable;
      var payload := Payload(m);
      Write(HEADER_SIZE, payload);
      ghost var written := buffer[..];
      assert written[HEADER_SIZE..HEADER_SIZE + |payload|] == payload;
      Write(0, WriteHeader(HeaderOf(protocol, m)));
      length := HEADER_SIZE + |payload|;
      assert buffer[..] == WriteHeader(HeaderOf(protocol, m)) + written[HEADER_SIZE..];
      assert buffer[..length] == buffer[..][..length] == WriteHeader(HeaderOf(protocol, m)) + payload;
    }
  }
}
