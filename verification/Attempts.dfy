/** The running connection attempts, by endpoint, and listed by address group and by subnetwork. */
module Attempts {
  import opened Wrappers
  import opened Clock
  import opened Addresses
  import opened Buckets

  datatype Direction = Inbound | Outbound

  datatype Entry = Entry(endpoint: Endpoint, address: Ip, subnetwork: Ip, start: int, direction: Direction)

  function NewEntry(endpoint: Endpoint, direction: Direction, start: int): Entry {
    Entry(endpoint, Group(endpoint.ip), Subnetwork(endpoint.ip), start, direction)
  }

  ghost function AddressOf(attempts: map<Endpoint, Entry>): map<Endpoint, Ip> {
    map e | e in attempts :: attempts[e].address
  }

  ghost function SubnetworkOf(attempts: map<Endpoint, Entry>): map<Endpoint, Ip> {
    map e | e in attempts :: attempts[e].subnetwork
  }

  lemma ColumnsPut(attempts: map<Endpoint, Entry>, e: Endpoint, attempt: Entry)
    ensures AddressOf(attempts[e := attempt]) == AddressOf(attempts)[e := attempt.address]
    ensures SubnetworkOf(attempts[e := attempt]) == SubnetworkOf(attempts)[e := attempt.subnetwork]
  {
  }

  lemma NewColumns(attempts: map<Endpoint, Entry>, e: Endpoint)
    ensures e in AddressOf(attempts) <==> e in attempts
    ensures e in SubnetworkOf(attempts) <==> e in attempts
  {
  }

  ghost function InGroup(attempts: map<Endpoint, Entry>, ip: Ip): set<Endpoint> {
    set e | e in attempts && Group(e.ip) == ip
  }

  ghost function InSubnetwork(attempts: map<Endpoint, Entry>, subnet: Ip): set<Endpoint> {
    set e | e in attempts && Subnetwork(e.ip) == subnet
  }

  /** Removes a value as `remove` does: a list of one is dropped without a look at what it holds. */
  function Cut(index: map<Ip, seq<Endpoint>>, key: Ip, e: Endpoint): map<Ip, seq<Endpoint>>
    requires key in index
  {
    if |index[key]| > 1 then index[key := Without(index[key], e)] else index - {key}
  }

  lemma CutDrops(index: map<Ip, seq<Endpoint>>, keyOf: map<Endpoint, Ip>, e: Endpoint)
    requires Indexes(index, keyOf) && e in keyOf
    ensures keyOf[e] in index && Indexes(Cut(index, keyOf[e], e), keyOf - {e})
  {
    hide Indexes;
    IndexesDrop(index, keyOf, e);
    var list := index[keyOf[e]];
    ListDistinct(index, keyOf, keyOf[e]);
    WithoutMembers(list, e);
    if |list| > 1 {
      var other := if list[0] == e then list[1] else list[0];
      assert other in Without(list, e);
    } else {
      assert list == [e] && list[1..] == [] && Without(list[1..], e) == [];
      assert Without(list, e) == [];
    }
  }

  lemma ListDistinct(index: map<Ip, seq<Endpoint>>, keyOf: map<Endpoint, Ip>, key: Ip)
    requires Indexes(index, keyOf) && key in index
    ensures index[key] != [] && Distinct(index[key])
  {
  }

  // ---- What purging removes ----

  predicate IsOutbound(attempts: map<Endpoint, Entry>, e: Endpoint) {
    e in attempts && attempts[e].direction == Outbound
  }

  /** An attempt goes if every outbound attempt that began no later is at or past the timeout. */
  ghost predicate Overdue(attempts: map<Endpoint, Entry>, e: Endpoint, now: int, timeout: nat) {
    && IsOutbound(attempts, e)
    && forall o | IsOutbound(attempts, o) && attempts[o].start <= attempts[e].start :: Elapsed(attempts[o].start, now) >= timeout
  }

  /** At or past the timeout, in real time. */
  ghost predicate TimedOut(attempts: map<Endpoint, Entry>, e: Endpoint, now: int, timeout: nat) {
    IsOutbound(attempts, e) && now - attempts[e].start >= timeout
  }

  /** All outbound attempts began within reach of the 64 bits of a duration. */
  ghost predicate InReach(attempts: map<Endpoint, Entry>, now: int, timeout: nat) {
    forall o | IsOutbound(attempts, o) :: now - WRAP < attempts[o].start <= now + WRAP - timeout
  }

  ghost predicate NoneFromFuture(attempts: map<Endpoint, Entry>, now: int) {
    forall o | IsOutbound(attempts, o) :: attempts[o].start <= now
  }

  ghost predicate OneStillRunning(attempts: map<Endpoint, Entry>, now: int, timeout: nat) {
    exists o :: IsOutbound(attempts, o) && 0 <= now - attempts[o].start < timeout
  }

  /** Purging removes exactly the outbound attempts at or past the timeout if and only if no attempt began after `now` or
      some attempt is still running: the negative age of an attempt from the future reads as a huge one, but purging stops
      at the first attempt that is still running. */
  lemma PurgeIsExact(attempts: map<Endpoint, Entry>, now: int, timeout: nat)
    requires 0 < timeout && InReach(attempts, now, timeout)
    ensures (forall e :: Overdue(attempts, e, now, timeout) <==> TimedOut(attempts, e, now, timeout))
      <==> NoneFromFuture(attempts, now) || OneStillRunning(attempts, now, timeout)
  {
    forall o | IsOutbound(attempts, o) ensures Elapsed(attempts[o].start, now) >= timeout <==>
      now - attempts[o].start >= timeout || attempts[o].start > now
    {
      AgeOf(attempts[o].start, now, timeout);
    }
    if NoneFromFuture(attempts, now) || OneStillRunning(attempts, now, timeout) {
      forall e ensures Overdue(attempts, e, now, timeout) <==> TimedOut(attempts, e, now, timeout) {
      }
    } else {
      var f :| IsOutbound(attempts, f) && attempts[f].start > now;
      assert Overdue(attempts, f, now, timeout) && !TimedOut(attempts, f, now, timeout);
    }
  }

  lemma AgeOf(start: int, now: int, timeout: nat)
    requires 0 < timeout && now - WRAP < start <= now + WRAP - timeout
    ensures Elapsed(start, now) >= timeout <==> now - start >= timeout || start > now
  {
    if start > now {
      assert (now - start) % 0x1_0000_0000_0000_0000 == now - start + WRAP;
    }
  }

  class AttemptContainer {
    var byEndpoint: map<Endpoint, Entry>
    var byAddress: map<Ip, seq<Endpoint>>
    var bySubnetwork: map<Ip, seq<Endpoint>>

    ghost predicate Valid()
      reads this
    {
      && (forall e | e in byEndpoint :: byEndpoint[e] == NewEntry(e, byEndpoint[e].direction, byEndpoint[e].start))
      && Indexes(byAddress, AddressOf(byEndpoint))
      && Indexes(bySubnetwork, SubnetworkOf(byEndpoint))
    }

    constructor ()
      ensures Valid() && byEndpoint == map[]
    {
      byEndpoint, byAddress, bySubnetwork := map[], map[], map[];
    }

    method Insert(endpoint: Endpoint, direction: Direction, start: int) returns (inserted: bool)
      requires Valid()
      modifies this
      ensures Valid() && inserted == (endpoint !in old(byEndpoint))
      ensures byEndpoint ==
        if inserted then old(byEndpoint)[endpoint := NewEntry(endpoint, direction, start)] else old(byEndpoint)
    {
      hide Indexes, AddressOf, SubnetworkOf, Pushed;
      if endpoint in byEndpoint {
        return false;
      }
      var attempt := NewEntry(endpoint, direction, start);
      NewColumns(byEndpoint, endpoint);
      ColumnsPut(byEndpoint, endpoint, attempt);
      IndexesPush(byAddress, AddressOf(byEndpoint), attempt.address, endpoint);
      IndexesPush(bySubnetwork, SubnetworkOf(byEndpoint), attempt.subnetwork, endpoint);
      byAddress := Pushed(byAddress, attempt.address, attempt.endpoint);
      bySubnetwork := Pushed(bySubnetwork, attempt.subnetwork, attempt.endpoint);
      byEndpoint := byEndpoint[attempt.endpoint := attempt];
      inserted := true;
    }

    method Remove(endpoint: Endpoint)
      requires Valid()
      modifies this
      ensures Valid() && byEndpoint == old(byEndpoint) - {endpoint}
    {
      hide Indexes;
      if endpoint in byEndpoint {
        var attempt := byEndpoint[endpoint];
        CutDrops(byAddress, AddressOf(byEndpoint), endpoint);
        CutDrops(bySubnetwork, SubnetworkOf(byEndpoint), endpoint);
        ghost var after := byEndpoint - {endpoint};
        assert AddressOf(after) == AddressOf(byEndpoint) - {endpoint};
        assert SubnetworkOf(after) == SubnetworkOf(byEndpoint) - {endpoint};
        byEndpoint := byEndpoint - {endpoint};
        byAddress := Cut(byAddress, attempt.address, endpoint);
        bySubnetwork := Cut(bySubnetwork, attempt.subnetwork, endpoint);
      } else {
        assert byEndpoint == byEndpoint - {endpoint};
      }
    }

    method CountByAddress(address: Ip) returns (n: nat)
      requires Valid()
      ensures n == |InGroup(byEndpoint, address)|
    {
      assert ValuesAt(AddressOf(byEndpoint), address) == InGroup(byEndpoint, address);
      IndexCounts(byAddress, AddressOf(byEndpoint), address);
      n := |Listed(byAddress, address)|;
    }

    method CountBySubnetwork(subnet: Ip) returns (n: nat)
      requires Valid()
      ensures n == |InSubnetwork(byEndpoint, subnet)|
    {
      assert ValuesAt(SubnetworkOf(byEndpoint), subnet) == InSubnetwork(byEndpoint, subnet);
      IndexCounts(bySubnetwork, SubnetworkOf(byEndpoint), subnet);
      n := |Listed(bySubnetwork, subnet)|;
    }

    /** The outbound attempt that began first. */
    method GetOldest() returns (oldest: Option<Endpoint>)
      ensures oldest.None? <==> forall e :: !IsOutbound(byEndpoint, e)
      ensures oldest.Some? ==>
        && IsOutbound(byEndpoint, oldest.value)
        && forall e | IsOutbound(byEndpoint, e) :: byEndpoint[oldest.value].start <= byEndpoint[e].start
    {
      oldest := None;
      var rest := byEndpoint.Keys;
      while rest != {}
        invariant rest <= byEndpoint.Keys
        invariant oldest.Some? ==> IsOutbound(byEndpoint, oldest.value)
        invariant forall e | IsOutbound(byEndpoint, e) && e !in rest ::
          oldest.Some? && byEndpoint[oldest.value].start <= byEndpoint[e].start
        decreases rest
      {
        var e :| e in rest;
        rest := rest - {e};
        if byEndpoint[e].direction == Outbound && (oldest.None? || byEndpoint[e].start < byEndpoint[oldest.value].start) {
          oldest := Some(e);
        }
      }
    }

    method Purge(now: int, timeout: nat)
      requires Valid()
      modifies this
      ensures Valid()
      ensures forall e :: e in byEndpoint <==> e in old(byEndpoint) && !Overdue(old(byEndpoint), e, now, timeout)
      ensures forall e | e in byEndpoint :: byEndpoint[e] == old(byEndpoint)[e]
    {
      ghost var before := byEndpoint;
      while true
        invariant Valid() && byEndpoint.Keys <= before.Keys
        invariant forall e | e in byEndpoint :: byEndpoint[e] == before[e]
        invariant forall e | e in before && e !in byEndpoint :: Overdue(before, e, now, timeout)
        decreases byEndpoint.Keys
      {
        var oldest := GetOldest();
        if oldest.None? {
          assert forall e | e in byEndpoint :: !IsOutbound(byEndpoint, e) && !IsOutbound(before, e);
          return;
        }
        if Elapsed(byEndpoint[oldest.value].start, now) < timeout {
          forall e | e in byEndpoint ensures !Overdue(before, e, now, timeout) {
            if IsOutbound(before, e) {
              assert IsOutbound(byEndpoint, e) && IsOutbound(before, oldest.value);
            }
          }
          return;
        }
        forall o | IsOutbound(before, o) && before[o].start <= before[oldest.value].start
          ensures Elapsed(before[o].start, now) >= timeout
        {
          if o in byEndpoint {
            assert IsOutbound(byEndpoint, o);
          } else {
            assert Overdue(before, o, now, timeout);
          }
        }
        Remove(oldest.value);
      }
    }
  }
}
