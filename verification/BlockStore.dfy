/**
 * The block store: an index table from hashes to block ids and a data table from ids to blocks. Table
 * keys are byte strings in byte order, and ids are written as eight big-endian bytes.
 */
module BlockStore {
  import opened Wrappers
  import opened Bytes

  /** The order of table keys: the first difference decides, and a prefix comes first. */
  predicate Before(a: seq<byte>, b: seq<byte>) {
    exists i :: 0 <= i < |b| && Differ(a, b, i)
  }

  predicate Differ(a: seq<byte>, b: seq<byte>, i: nat) {
    i <= |a| && i < |b| && a[..i] == b[..i] && (i == |a| || a[i] < b[i])
  }

  lemma {:induction false} SameNumber(a: seq<byte>, b: seq<byte>)
    requires |a| == |b|
    ensures FromBigEndian(a) == FromBigEndian(b) <==> a == b
    decreases |a|
  {
    if a != [] {
      var n := |a| - 1;
      SameNumber(a[..n], b[..n]);
      assert a == a[..n] + [a[n]] && b == b[..n] + [b[n]];
    }
  }

  /** Byte order is number order, for big-endian numbers of one width. */
  lemma {:induction false} KeyOrder(a: seq<byte>, b: seq<byte>)
    requires |a| == |b|
    ensures Before(a, b) <==> FromBigEndian(a) < FromBigEndian(b)
    decreases |a|
  {
    if a != [] {
      var n := |a| - 1;
      KeyOrder(a[..n], b[..n]);
      SameNumber(a[..n], b[..n]);
      var a', b' := a[..n], b[..n];
      assert FromBigEndian(a) == 256 * FromBigEndian(a') + a[n] && FromBigEndian(b) == 256 * FromBigEndian(b') + b[n];
      if Before(a, b) {
        var i :| 0 <= i < |b| && Differ(a, b, i);
        if i < n {
          PrefixDiffers(a, b, n, i);
          assert Before(a', b');
        } else {
          assert i == n && a' == b' && a[n] < b[n];
        }
      }
      if Before(a', b') {
        var i :| 0 <= i < |b'| && Differ(a', b', i);
        PrefixDiffers(a, b, n, i);
        assert Before(a, b);
      } else if a' == b' && a[n] < b[n] {
        assert Differ(a, b, n);
      }
    }
  }

  lemma PrefixDiffers(a: seq<byte>, b: seq<byte>, n: nat, i: nat)
    requires |a| == |b| && i < n < |a|
    ensures Differ(a, b, i) <==> Differ(a[..n], b[..n], i)
  {
  }

  const IDS: nat := 0x1_0000_0000_0000_0000

  function IdKey(id: nat): (k: seq<byte>)
    ensures |k| == 8
  {
    BigEndian(id, 8)
  }

  lemma IdKeyReads(id: nat)
    requires id < IDS
    ensures FromBigEndian(IdKey(id)) == id
  {
    assert Pow256(2) == 0x1_0000 && Pow256(4) == 0x1_0000_0000 && Pow256(6) == 0x1_0000_0000_0000 && Pow256(8) == IDS;
    BigEndianReads(id, 8);
  }

  // ---- The database operations ----

  /** A put that refuses a key that is there. */
  function PutNoOverwrite<K, V>(table: map<K, V>, key: K, value: V): Option<map<K, V>> {
    if key in table then None else Some(table[key := value])
  }

  /** A put that refuses a key that does not come after all others. */
  predicate Appends<V>(table: map<seq<byte>, V>, key: seq<byte>) {
    forall k | k in table :: Before(k, key)
  }

  predicate IsLast<V>(table: map<seq<byte>, V>, key: seq<byte>) {
    key in table && forall k | k in table :: k == key || Before(k, key)
  }

  // ---- The tables ----

  ghost predicate TablesOk<H, B>(index: map<H, seq<byte>>, data: map<seq<byte>, B>) {
    && (forall h | h in index :: index[h] in data)
    && (forall k | k in data :: |k| == 8 && exists h :: h in index && index[h] == k)
    && (forall g, h | g in index && h in index && index[g] == index[h] :: g == h)
  }

  /** Every id in use is below `next`. */
  ghost predicate IdsBelow<B>(data: map<seq<byte>, B>, next: nat) {
    forall k | k in data :: FromBigEndian(k) < next
  }

  /** The one map that the two tables stand for. */
  ghost function Blocks<H, B>(index: map<H, seq<byte>>, data: map<seq<byte>, B>): map<H, B>
    requires TablesOk(index, data)
  {
    map h | h in index :: data[index[h]]
  }

  lemma NewKeyLast<H, B>(index: map<H, seq<byte>>, data: map<seq<byte>, B>, id: nat)
    requires TablesOk(index, data) && IdsBelow(data, id) && id < IDS
    ensures |IdKey(id)| == 8 && FromBigEndian(IdKey(id)) == id && Appends(data, IdKey(id)) && IdKey(id) !in data
  {
    hide Before;
    IdKeyReads(id);
    forall k | k in data ensures Before(k, IdKey(id)) {
      KeyOrder(k, IdKey(id));
    }
  }

  lemma PutRefines<H, B>(index: map<H, seq<byte>>, data: map<seq<byte>, B>, hash: H, block: B, id: nat)
    requires TablesOk(index, data) && IdsBelow(data, id) && id < IDS && hash !in index
    ensures Appends(data, IdKey(id))
    ensures var index', data' := index[hash := IdKey(id)], data[IdKey(id) := block];
      TablesOk(index', data') && IdsBelow(data', id + 1) && Blocks(index', data') == Blocks(index, data)[hash := block]
  {
    hide Before, IdKey;
    var key := IdKey(id);
    NewKeyLast(index, data, id);
    var index', data' := index[hash := key], data[key := block];
    forall k | k in data' ensures |k| == 8 && exists h :: h in index' && index'[h] == k {
      if k == key {
        assert hash in index' && index'[hash] == k;
      } else {
        var h :| h in index && index[h] == k;
        assert h in index' && index'[h] == k;
      }
    }
  }

  lemma DelRefines<H, B>(index: map<H, seq<byte>>, data: map<seq<byte>, B>, hash: H)
    requires TablesOk(index, data) && hash in index
    ensures TablesOk(index - {hash}, data - {index[hash]})
    ensures Blocks(index - {hash}, data - {index[hash]}) == Blocks(index, data) - {hash}
  {
    var index', data' := index - {hash}, data - {index[hash]};
    forall k | k in data' ensures |k| == 8 && exists h :: h in index' && index'[h] == k {
      var h :| h in index && index[h] == k;
      assert h in index' && index'[h] == k;
    }
  }

  /** The id after the last one is above all of them. */
  lemma NextAfterLast<B>(data: map<seq<byte>, B>, key: seq<byte>)
    requires (forall k | k in data :: |k| == 8) && IsLast(data, key)
    ensures IdsBelow(data, FromBigEndian(key) + 1)
  {
    forall k | k in data ensures FromBigEndian(k) < FromBigEndian(key) + 1 {
      KeyOrder(k, key);
    }
  }

  lemma {:induction false} LastExists<V>(table: map<seq<byte>, V>, keys: set<seq<byte>>) returns (last: seq<byte>)
    requires keys != {} && forall k | k in keys :: k in table && |k| == 8
    ensures last in keys && forall k | k in keys :: k == last || Before(k, last)
    decreases |keys|
  {
    last :| last in keys;
    var rest := keys - {last};
    if rest != {} {
      var other := LastExists(table, rest);
      KeyOrder(last, other);
      forall k | k in keys && k != last && !Before(last, other) ensures Before(k, last) {
        KeyOrder(k, other);
        KeyOrder(k, last);
        SameNumber(last, other);
      }
      last := if Before(last, other) then other else last;
    }
  }

  datatype PutError = HashExists | NotAppended

  class LmdbBlockStore<H(==), B> {
    var index: map<H, seq<byte>>
    var data: map<seq<byte>, B>
    var nextId: nat

    ghost predicate Valid()
      reads this
    {
      TablesOk(index, data) && IdsBelow(data, nextId)
    }

    ghost function Contents(): map<H, B>
      requires Valid()
      reads this
    {
      Blocks(index, data)
    }

    /** Opens a store on tables that an earlier one left behind; the next id is found from the last key. */
    constructor (index: map<H, seq<byte>>, data: map<seq<byte>, B>)
      requires TablesOk(index, data)
      ensures Valid() && Contents() == Blocks(index, data)
    {
      this.index, this.data, nextId := index, data, 0;
      if data.Keys != {} {
        ghost var last := LastExists(data, data.Keys);
        assert IsLast(data, last);
        var key :| key in data && forall k | k in data :: k == key || Before(k, key);
        NextAfterLast(data, key);
        nextId := FromBigEndian(key) + 1;
      }
    }

    /** A new hash is stored under a new id; a known one is refused. The append itself never fails. */
    method Put(hash: H, block: B) returns (r: Result<(), PutError>)
      requires Valid() && nextId < IDS
      modifies this
      ensures Valid() && nextId == old(nextId) + 1
      ensures r.Err? <==> hash in old(Contents())
      ensures r.Err? ==> r.error == HashExists && Contents() == old(Contents())
      ensures r.Ok? ==> Contents() == old(Contents())[hash := block]
    {
      var id := nextId;
      nextId := nextId + 1;
      var index' := PutNoOverwrite(index, hash, IdKey(id));
      if index'.None? {
        return Err(HashExists);
      }
      PutRefines(index, data, hash, block, id);
      if !Appends(data, IdKey(id)) {
        return Err(NotAppended);
      }
      index, data := index'.value, data[IdKey(id) := block];
      r := Ok(());
    }

    method Get(hash: H) returns (block: Option<B>)
      requires Valid()
      ensures block == if hash in Contents() then Some(Contents()[hash]) else None
    {
      if hash !in index {
        return None;
      }
      block := Some(data[index[hash]]);
    }

    method Del(hash: H)
      requires Valid()
      modifies this`index, this`data
      ensures Valid() && Contents() == old(Contents()) - {hash}
    {
      if hash in index {
        DelRefines(index, data, hash);
        data := data - {index[hash]};
        index := index - {hash};
      }
    }

    method Count() returns (n: nat)
      requires Valid()
      ensures n == |Contents()|
    {
      assert Contents().Keys == index.Keys;
      n := |index|;
    }
  }
}
