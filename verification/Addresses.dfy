/** IPv6 addresses, which also stand for IPv4 addresses, and the networks they belong to. */
module Addresses {
  import opened Bytes

  type Ip = s: seq<byte> | |s| == 16 witness Zeros(16)

  datatype Endpoint = Endpoint(ip: Ip, port: nat)

  predicate IsIpv4Mapped(ip: Ip) {
    ip[..12] == Zeros(10) + [0xff, 0xff]
  }

  /** The first address of the network with the given prefix, in bytes. */
  function FirstOfNetwork(ip: Ip, prefix: nat): Ip
    requires prefix <= 16
  {
    ip[..prefix] + Zeros(16 - prefix)
  }

  /** /24 for IPv4, /32 for IPv6. */
  function Subnetwork(ip: Ip): Ip {
    if IsIpv4Mapped(ip) then FirstOfNetwork(ip, 15) else FirstOfNetwork(ip, 4)
  }

  /** The address itself for IPv4, its /48 network for IPv6. */
  function Group(ip: Ip): Ip {
    if IsIpv4Mapped(ip) then ip else FirstOfNetwork(ip, 6)
  }

  /** No IPv6 network of either kind is an IPv4 address. */
  lemma NetworksApart(ip: Ip, prefix: nat)
    requires prefix <= 10
    ensures !IsIpv4Mapped(FirstOfNetwork(ip, prefix))
  {
    var n := FirstOfNetwork(ip, prefix);
    assert n[..12][11] == 0;
  }

  /** An IPv4 subnetwork is an IPv4 address, so it is no IPv6 subnetwork. */
  lemma Ipv4SubnetworkIsMapped(ip: Ip)
    requires IsIpv4Mapped(ip)
    ensures IsIpv4Mapped(Subnetwork(ip))
  {
  }

  lemma GroupIdempotent(ip: Ip)
    ensures Group(Group(ip)) == Group(ip)
  {
  }

  lemma SameNetwork(a: Ip, b: Ip, prefix: nat)
    requires prefix <= 16
    ensures FirstOfNetwork(a, prefix) == FirstOfNetwork(b, prefix) <==> a[..prefix] == b[..prefix]
  {
    assert FirstOfNetwork(a, prefix)[..prefix] == a[..prefix];
    assert FirstOfNetwork(b, prefix)[..prefix] == b[..prefix];
  }

  /** Two addresses are in one group if and only if they are the same IPv4 address or in the same /48 network. */
  lemma SameGroup(a: Ip, b: Ip)
    ensures Group(a) == Group(b) <==>
      if IsIpv4Mapped(a) then a == b else !IsIpv4Mapped(b) && a[..6] == b[..6]
  {
    SameNetwork(a, b, 6);
    NetworksApart(a, 6);
    NetworksApart(b, 6);
  }

  /** Two addresses are in one subnetwork if and only if they share 24 bits of an IPv4 address or 32 bits of an IPv6 address. */
  lemma SameSubnetwork(a: Ip, b: Ip)
    ensures Subnetwork(a) == Subnetwork(b) <==>
      (IsIpv4Mapped(a) <==> IsIpv4Mapped(b)) && if IsIpv4Mapped(a) then a[12..15] == b[12..15] else a[..4] == b[..4]
  {
    SameNetwork(a, b, 15);
    SameNetwork(a, b, 4);
    NetworksApart(a, 4);
    NetworksApart(b, 4);
    if IsIpv4Mapped(a) && IsIpv4Mapped(b) {
      assert a[..15] == a[..12] + a[12..15] && b[..15] == b[..12] + b[12..15];
      assert a[..15][12..] == a[12..15] && b[..15][12..] == b[12..15];
    } else {
      if IsIpv4Mapped(a) { Ipv4SubnetworkIsMapped(a); }
      if IsIpv4Mapped(b) { Ipv4SubnetworkIsMapped(b); }
    }
  }
}
