/** The messages of the wire protocol: payload layouts, and the 16 extension bits of the header that describe them.

    Fields that are laid out one after the other at fixed offsets and have no influence on the layout are kept as one byte
    string.  The bit fields of the extensions never overlap, so setting them is written as addition. */
module Messages {
  import opened Wrappers
  import opened Bytes

  type u16 = n: nat | n < 0x10000

  // ----- blocks --------------------------------------------------------------------------------------------------------

  /** A block on the wire: its type code and a body of the size that belongs to the type. */
  datatype WireBlock = WireBlock(blockType: byte, body: seq<byte>)

  const NOT_A_BLOCK: byte := 1

  /** `serialized_block_size`; the codes above 6 are read as the invalid type. */
  function BlockSize(blockType: nat): nat {
    match blockType
    case 2 => 152
    case 3 => 136
    case 4 => 168
    case 5 => 136
    case 6 => 216
    case _ => 0
  }

  predicate IsBlock(b: WireBlock) {
    2 <= b.blockType <= 6 && |b.body| == BlockSize(b.blockType)
  }

  function ReadBlockBody(blockType: byte, s: seq<byte>): Option<(WireBlock, seq<byte>)> {
    if 2 <= blockType <= 6 then
      var (body, rest) :- Take(s, BlockSize(blockType));
      Some((WireBlock(blockType, body), rest))
    else None
  }

  function ReadBlock(s: seq<byte>): Option<(WireBlock, seq<byte>)> {
    var (blockType, rest) :- Take(s, 1);
    ReadBlockBody(blockType[0], rest)
  }

  // ----- flags ---------------------------------------------------------------------------------------------------------

  /** The bit of `extensions` whose weight is `mask`. */
  predicate Flag(extensions: u16, mask: nat)
    requires mask > 0
  {
    extensions / mask % 2 == 1
  }

  function FlagBit(mask: u16, set_: bool): u16 {
    if set_ then mask else 0
  }

  // ----- lists of pairs ------------------------------------------------------------------------------------------------

  /** A block hash and a root, or an account and its frontier. */
  datatype Pair = Pair(first: B32, second: B32)

  const NULL_PAIR: Pair := Pair(Zeros(32), Zeros(32))

  function WritePairs(pairs: seq<Pair>): seq<byte> {
    if pairs == [] then [] else pairs[0].first + pairs[0].second + WritePairs(pairs[1..])
  }

  function ReadPair(s: seq<byte>): (r: Option<(Pair, seq<byte>)>)
    ensures r.Some? ==> |r.value.1| == |s| - 64
  {
    var (first, s1) :- Take(s, 32);
    var (second, rest) :- Take(s1, 32);
    Some((Pair(first, second), rest))
  }

  lemma ReadPairWritten(pairs: seq<Pair>, rest: seq<byte>)
    requires pairs != []
    ensures ReadPair(WritePairs(pairs) + rest) == Some((pairs[0], WritePairs(pairs[1..]) + rest))
    ensures |WritePairs(pairs)| == 64 + |WritePairs(pairs[1..])|
  {
    hide ReadPair;
    var p, written := pairs[0], WritePairs(pairs[1..]);
    Regroup(p.first + p.second, written, rest);
    ReadOnePair(p, written + rest);
  }

  lemma ReadOnePair(p: Pair, rest: seq<byte>)
    ensures ReadPair(p.first + p.second + rest) == Some((p, rest))
  {
    hide Take;
    Regroup(p.first, p.second, rest);
    TakeWritten(p.first, p.second + rest);
    TakeWritten(p.second, rest);
  }

  lemma {:induction false} WritePairsSize(pairs: seq<Pair>)
    ensures |WritePairs(pairs)| == 64 * |pairs|
  {
    if pairs != [] {
      WritePairsSize(pairs[1..]);
    }
  }

  // ----- ConfirmReq ----------------------------------------------------------------------------------------------------

  /** The count of hashes in the extensions: four bits, or eight bits when the flag of version 2 is set. */
  function Count(extensions: u16): nat {
    if Flag(extensions, 1) then extensions / 4096 * 16 + extensions / 16 % 16 else extensions / 4096
  }

  function CountBits(count: nat): u16
    requires count < 256
  {
    if count < 16 then count * 4096 else 1 + count / 16 * 4096 + count % 16 * 16
  }

  /** The bit fields as the node combines them do not overlap. */
  lemma CountFieldsDisjoint(count: bv8)
    ensures 1 | ((((count >> 4) & 0xf) as bv16) << 12) | (((count & 0xf) as bv16) << 4) | 0x100 ==
            1 + ((((count >> 4) & 0xf) as bv16) << 12) + (((count & 0xf) as bv16) << 4) + 0x100
  {
  }

  /** Whatever is stored in the bits 1 to 3 and 8 to 11 beside it, the count is read back, and so are those bits. */
  lemma CountReads(count: nat, low: nat, blockType: nat)
    requires count < 256 && low < 8 && blockType < 16
    ensures CountBits(count) + 2 * low + 256 * blockType < 0x10000
    ensures Count(CountBits(count) + 2 * low + 256 * blockType) == count
    ensures (CountBits(count) + 2 * low + 256 * blockType) / 2 % 8 == low
    ensures (CountBits(count) + 2 * low + 256 * blockType) / 256 % 16 == blockType
  {
    if count < 16 {
      Fields(count, blockType, 0, low, 0);
    } else {
      Fields(count / 16, blockType, count % 16, low, 1);
    }
  }

  /** Five bit fields next to each other. */
  lemma Fields(a: nat, b: nat, c: nat, d: nat, e: nat)
    requires a < 16 && b < 16 && c < 16 && d < 8 && e < 2
    ensures var n := 4096 * a + 256 * b + 16 * c + 2 * d + e;
            n / 4096 == a && n / 256 % 16 == b && n / 16 % 16 == c && n / 2 % 8 == d && n % 2 == e
  {
    var n := 4096 * a + 256 * b + 16 * c + 2 * d + e;
    assert n / 2 == 8 * (256 * a + 16 * b + c) + d;
    assert n / 16 == 16 * (16 * a + b) + c;
    assert n / 256 == 16 * a + b;
  }

  function ConfirmReqSize(extensions: u16): nat {
    var blockType := extensions / 256 % 16;
    if blockType == 1 then Count(extensions) * 64 else BlockSize(blockType)
  }

  /** The pairs of a request; a pair of two zeros makes the request invalid, and so does an empty list. */
  function ReadPairs(s: seq<byte>, count: nat): Option<seq<Pair>> {
    if count == 0 then Some([])
    else
      var (pair, rest) :- ReadPair(s);
      var pairs :- ReadPairs(rest, count - 1);
      if pair == NULL_PAIR then None else Some([pair] + pairs)
  }

  predicate NoNull(pairs: seq<Pair>) {
    forall i | 0 <= i < |pairs| :: pairs[i] != NULL_PAIR
  }

  /** A list of pairs is read back, unless a pair of two zeros is in it. */
  lemma {:induction false} ReadPairsWritten(pairs: seq<Pair>, rest: seq<byte>)
    ensures ReadPairs(WritePairs(pairs) + rest, |pairs|) == if NoNull(pairs) then Some(pairs) else None
  {
    hide ReadPair;
    if pairs != [] {
      ReadPairWritten(pairs, rest);
      ReadPairsWritten(pairs[1..], rest);
      assert pairs == [pairs[0]] + pairs[1..];
    }
  }

  // ----- frontiers and blocks of AscPullAck ------------------------------------------------------------------------------

  const MAX_FRONTIERS: nat := 1000
  const MAX_BLOCKS: nat := 128

  /** A list that ends with a null frontier or after the maximum number of entries. */
  function ReadFrontiers(s: seq<byte>, taken: nat): Option<seq<Pair>>
    decreases |s|
  {
    var (current, rest) :- ReadPair(s);
    if current == NULL_PAIR || taken >= MAX_FRONTIERS then Some([])
    else
      var more :- ReadFrontiers(rest, taken + 1);
      Some([current] + more)
  }

  function WriteFrontiers(frontiers: seq<Pair>): seq<byte> {
    WritePairs(frontiers) + (NULL_PAIR.first + NULL_PAIR.second)
  }

  /** A list of frontiers is read back if and only if it is not too long and none of them looks like the terminator. */
  lemma {:induction false} ReadFrontiersWritten(frontiers: seq<Pair>, taken: nat)
    requires taken <= MAX_FRONTIERS
    ensures ReadFrontiers(WriteFrontiers(frontiers), taken) == Some(frontiers)
      <==> taken + |frontiers| <= MAX_FRONTIERS && NoNull(frontiers)
  {
    hide ReadPair;
    var terminator := NULL_PAIR.first + NULL_PAIR.second;
    if frontiers == [] {
      ReadOnePair(NULL_PAIR, []);
      assert WriteFrontiers(frontiers) == terminator == terminator + [];
    } else {
      ReadPairWritten(frontiers, terminator);
      if taken < MAX_FRONTIERS {
        ReadFrontiersWritten(frontiers[1..], taken + 1);
        assert frontiers == [frontiers[0]] + frontiers[1..];
      }
    }
  }

  function WriteBlocks(blocks: seq<WireBlock>): seq<byte>
    requires forall i | 0 <= i < |blocks| :: IsBlock(blocks[i])
  {
    if blocks == [] then [NOT_A_BLOCK] else [blocks[0].blockType] + blocks[0].body + WriteBlocks(blocks[1..])
  }

  /** Blocks are read until one cannot be read; one more than the maximum is an error. */
  function ReadBlocks(s: seq<byte>, taken: nat): Option<seq<WireBlock>>
    decreases |s|
  {
    match ReadBlock(s)
    case None => Some([])
    case Some((block, rest)) =>
      if taken >= MAX_BLOCKS then None
      else
        var more :- ReadBlocks(rest, taken + 1);
        Some([block] + more)
  }

  lemma ReadBlockWritten(b: WireBlock, rest: seq<byte>)
    requires IsBlock(b)
    ensures ReadBlock([b.blockType] + b.body + rest) == Some((b, rest))
  {
    assert [b.blockType] + b.body + rest == [b.blockType] + (b.body + rest);
    TakeWritten([b.blockType], b.body + rest);
    TakeWritten(b.body, rest);
  }

  lemma EndOfBlocks()
    ensures ReadBlock([NOT_A_BLOCK]).None?
  {
    TakeWritten([NOT_A_BLOCK], []);
  }

  lemma {:induction false} ReadBlocksWritten(blocks: seq<WireBlock>, taken: nat)
    requires forall i | 0 <= i < |blocks| :: IsBlock(blocks[i])
    requires taken + |blocks| <= MAX_BLOCKS
    ensures ReadBlocks(WriteBlocks(blocks), taken) == Some(blocks)
    ensures |WriteBlocks(blocks)| <= 1 + 217 * |blocks|
  {
    hide ReadBlock;
    if blocks == [] {
      EndOfBlocks();
    } else {
      ReadBlocksWritten(blocks[1..], taken + 1);
      ReadBlockWritten(blocks[0], WriteBlocks(blocks[1..]));
      assert blocks == [blocks[0]] + blocks[1..];
    }
  }
}
