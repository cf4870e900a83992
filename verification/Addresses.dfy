/** The two address classifiers: `NeverDialable` (dialguard.go) over netip addresses and
    `IsPublicIP` (cimd.go) over net.IP values. */
module Addresses {
  import opened Wrappers
  import opened Bytes

  type Octets4 = s: Text | |s| == 4 witness [0, 0, 0, 0]
  type Octets16 = s: Text | |s| == 16 witness [0, 0, 0, 0, 0, 0, 0, 0, 0, 0, 0, 0, 0, 0, 0, 0]

  // netip.Addr without a zone. Unmap turns the ::ffff:0:0/96 form into V4.
  datatype Addr = V4(o4: Octets4) | V6(o16: Octets16)

  // net.IP: four bytes, or sixteen, which may be the mapped form of four.
  type NetIP = s: Text | |s| == 4 || |s| == 16 witness [0, 0, 0, 0]

  const MAPPED_PREFIX: Text := [0, 0, 0, 0, 0, 0, 0, 0, 0, 0, 0xff, 0xff]

  predicate Mapped(ip: NetIP) { |ip| == 16 && ip[..12] == MAPPED_PREFIX }

  predicate Unmapped(a: Addr) { a.V6? ==> !Mapped(a.o16) }

  function Unmap(a: Addr): Addr {
    if a.V6? && Mapped(a.o16) then V4(a.o16[12..]) else a
  }

  function AsSlice(a: Addr): NetIP {
    match a case V4(o) => o case V6(o) => o
  }

  function To4(ip: NetIP): Option<Octets4> {
    if |ip| == 4 then Some(ip) else if Mapped(ip) then Some(ip[12..]) else None
  }

  // net.IPv4 builds the sixteen byte form.
  function IPv4(a: Byte, b: Byte, c: Byte, d: Byte): (ip: NetIP)
    ensures To4(ip) == Some([a, b, c, d])
  {
    assert (MAPPED_PREFIX + [a, b, c, d])[..12] == MAPPED_PREFIX;
    MAPPED_PREFIX + [a, b, c, d]
  }

  // ---------- prefixes ----------

  function PowerOf2(n: nat): (p: nat)
    ensures p > 0
  {
    if n == 0 then 1 else 2 * PowerOf2(n - 1)
  }

  predicate SameLeadingBits(a: Byte, b: Byte, bits: nat)
    requires bits <= 8
  {
    a / PowerOf2(8 - bits) == b / PowerOf2(8 - bits)
  }

  // Whether the first `bits` bits agree.
  predicate SharesPrefix(a: Text, b: Text, bits: nat)
    requires |a| == |b|
  {
    if bits == 0 || a == [] then true
    else if bits < 8 then SameLeadingBits(a[0], b[0], bits)
    else a[0] == b[0] && SharesPrefix(a[1..], b[1..], bits - 8)
  }

  datatype Prefix = Prefix(base: Addr, bits: nat)

  // netip.Prefix.Contains: an address of the other family is never in it.
  predicate Contains(p: Prefix, a: Addr) {
    match (p.base, a)
    case (V4(b), V4(o)) => SharesPrefix(b, o, p.bits)
    case (V6(b), V6(o)) => SharesPrefix(b, o, p.bits)
    case _ => false
  }

  predicate InNets(nets: seq<Prefix>, a: Addr) { exists i :: 0 <= i < |nets| && Contains(nets[i], a) }

  // net.IPNet.Contains for the IPv6 networks below, none of which holds a mapped address.
  predicate InV6Net(base: Octets16, bits: nat, ip: NetIP) {
    To4(ip) == None && SharesPrefix(base, ip, bits)
  }

  const NAT64_WELL_KNOWN: Octets16 := [0x00, 0x64, 0xff, 0x9b, 0, 0, 0, 0, 0, 0, 0, 0, 0, 0, 0, 0]
  const NAT64_LOCAL: Octets16 := [0x00, 0x64, 0xff, 0x9b, 0x00, 0x01, 0, 0, 0, 0, 0, 0, 0, 0, 0, 0]
  const SIX_TO_FOUR: Octets16 := [0x20, 0x02, 0, 0, 0, 0, 0, 0, 0, 0, 0, 0, 0, 0, 0, 0]
  const IPV4_COMPATIBLE: Octets16 := [0, 0, 0, 0, 0, 0, 0, 0, 0, 0, 0, 0, 0, 0, 0, 0]
  const TEREDO: Octets16 := [0x20, 0x01, 0x00, 0x00, 0, 0, 0, 0, 0, 0, 0, 0, 0, 0, 0, 0]
  const METADATA: Addr := V4([100, 100, 100, 200])
  const THIS_NETWORK: Prefix := Prefix(V4([0, 0, 0, 0]), 8)
  const LOOPBACK6: Octets16 := [0, 0, 0, 0, 0, 0, 0, 0, 0, 0, 0, 0, 0, 0, 0, 1]
  const UNSPECIFIED6: Octets16 := [0, 0, 0, 0, 0, 0, 0, 0, 0, 0, 0, 0, 0, 0, 0, 0]

  predicate IsNAT64(ip: NetIP) {
    InV6Net(NAT64_WELL_KNOWN, 96, ip) || InV6Net(NAT64_LOCAL, 48, ip)
  }

  // The IPv4 destination an IPv6 address stands for, when it is one of the three forms.
  function EmbeddedIPv4(ip: NetIP): (v4: Option<NetIP>)
    ensures v4.Some? ==> To4(ip) == None && To4(v4.value).Some?
  {
    if To4(ip).Some? then None
    else if InV6Net(SIX_TO_FOUR, 16, ip) then Some(IPv4(ip[2], ip[3], ip[4], ip[5]))
    else if InV6Net(IPV4_COMPATIBLE, 96, ip) then
      if ip[12..] == [0, 0, 0, 0] then None else Some(IPv4(ip[12], ip[13], ip[14], ip[15]))
    else if InV6Net(TEREDO, 32, ip) then
      Some(IPv4(255 - ip[12], 255 - ip[13], 255 - ip[14], 255 - ip[15]))
    else None
  }

  // ---------- netip ----------

  predicate AddrIsLoopback(a: Addr) {
    match a case V4(o) => o[0] == 127 case V6(o) => o == LOOPBACK6
  }

  predicate AddrIsLinkLocalUnicast(a: Addr) {
    match a case V4(o) => o[0] == 169 && o[1] == 254 case V6(o) => o[0] == 0xfe && o[1] / 64 == 2
  }

  predicate AddrIsMulticast(a: Addr) {
    match a case V4(o) => o[0] / 16 == 0xe case V6(o) => o[0] == 0xff
  }

  predicate AddrIsUnspecified(a: Addr) {
    match a case V4(o) => o == [0, 0, 0, 0] case V6(o) => o == UNSPECIFIED6
  }

  predicate NeverDialable(a: Addr)
    decreases a.V6?
  {
    if AddrIsLinkLocalUnicast(a) || AddrIsMulticast(a) || AddrIsUnspecified(a)
      || a == METADATA || Contains(THIS_NETWORK, a) then true
    else if IsNAT64(AsSlice(a)) then true
    else if AddrIsLoopback(a) then false
    else
      match EmbeddedIPv4(AsSlice(a))
      case None => false
      case Some(v4) => NeverDialable(V4(To4(v4).value))
  }

  // ---------- net.IP ----------

  predicate IPIsLoopback(ip: NetIP) {
    match To4(ip) case Some(v4) => v4[0] == 127 case None => ip == LOOPBACK6
  }

  predicate IPIsPrivate(ip: NetIP) {
    match To4(ip)
    case Some(v4) => v4[0] == 10 || (v4[0] == 172 && v4[1] / 16 == 1) || (v4[0] == 192 && v4[1] == 168)
    case None => ip[0] / 2 == 0x7e
  }

  predicate IPIsUnspecified(ip: NetIP) {
    match To4(ip) case Some(v4) => v4 == [0, 0, 0, 0] case None => ip == UNSPECIFIED6
  }

  predicate IPIsLinkLocalUnicast(ip: NetIP) {
    match To4(ip)
    case Some(v4) => v4[0] == 169 && v4[1] == 254
    case None => ip[0] == 0xfe && ip[1] / 64 == 2
  }

  predicate IPIsLinkLocalMulticast(ip: NetIP) {
    match To4(ip)
    case Some(v4) => v4[0] == 224 && v4[1] == 0 && v4[2] == 0
    case None => ip[0] == 0xff && ip[1] % 16 == 2
  }

  predicate IPIsInterfaceLocalMulticast(ip: NetIP) {
    |ip| == 16 && ip[0] == 0xff && ip[1] % 16 == 1
  }

  predicate IPIsMulticast(ip: NetIP) {
    match To4(ip) case Some(v4) => v4[0] / 16 == 0xe case None => ip[0] == 0xff
  }

  predicate IsPublicIP(ip: NetIP)
    decreases To4(ip) == None
  {
    if IPIsLoopback(ip) || IPIsPrivate(ip) || IPIsUnspecified(ip) || IPIsLinkLocalUnicast(ip)
      || IPIsLinkLocalMulticast(ip) || IPIsInterfaceLocalMulticast(ip) || IPIsMulticast(ip) then false
    else if IsNAT64(ip) then false
    else
      match To4(ip)
      case Some(v4) => !(v4[0] == 100 && 64 <= v4[1] <= 127) && v4[0] != 0
      case None =>
        match EmbeddedIPv4(ip)
        case Some(v4) => IsPublicIP(v4)
        case None => true
  }

  // ---------- the dial guard ----------

  datatype Verdict = Admit | Reserved | NotListed | NotPublic

  function DialGuard(nets: seq<Prefix>, requireListed: bool, dialled: Addr): Verdict {
    Judge(nets, requireListed, Unmap(dialled))
  }

  function Judge(nets: seq<Prefix>, requireListed: bool, a: Addr): Verdict {
    if NeverDialable(a) then Reserved
    else if InNets(nets, a) then Admit
    else if requireListed then NotListed
    else if !IsPublicIP(AsSlice(a)) then NotPublic
    else Admit
  }

  // ---------- they agree ----------

  lemma ThisNetworkIsFirstOctetZero(o: Octets4)
    ensures Contains(THIS_NETWORK, V4(o)) <==> o[0] == 0
  {
    var zero: Text := [0, 0, 0, 0];
    assert SharesPrefix(zero[1..], o[1..], 0);
    assert SharesPrefix(zero, o, 8) <==> zero[0] == o[0];
  }

  lemma UnmappedSlice(a: Addr)
    requires Unmapped(a)
    ensures To4(AsSlice(a)) == if a.V4? then Some(a.o4) else None
  {
  }

  lemma NeverDialableV4IsNotPublic(o: Octets4, ip: NetIP)
    requires To4(ip) == Some(o) && NeverDialable(V4(o))
    ensures !IsPublicIP(ip)
  {
    ThisNetworkIsFirstOctetZero(o);
  }

  /** The two classifiers were written apart, over two representations. Nothing the dial
      guard always refuses does the other call public. */
  lemma NeverDialableIsNotPublic(a: Addr)
    requires Unmapped(a) && NeverDialable(a)
    ensures !IsPublicIP(AsSlice(a))
  {
    UnmappedSlice(a);
    match a
    case V4(o) => NeverDialableV4IsNotPublic(o, o);
    case V6(o) =>
      if EmbeddedIPv4(o).Some? {
        var v4 := EmbeddedIPv4(o).value;
        if NeverDialable(V4(To4(v4).value)) {
          NeverDialableV4IsNotPublic(To4(v4).value, v4);
        }
      }
  }

  lemma UnmapIsUnmapped(a: Addr)
    ensures Unmapped(Unmap(a))
  {
  }

  /** With no networks listed and https, the guard is exactly the public test. */
  lemma UnlistedGuardAdmitsExactlyThePublic(a: Addr)
    ensures DialGuard([], false, a).Admit? <==> IsPublicIP(AsSlice(Unmap(a)))
  {
    UnmapIsUnmapped(a);
    if NeverDialable(Unmap(a)) {
      NeverDialableIsNotPublic(Unmap(a));
    }
  }

  // The IPv4 address an IPv6 one wraps by 6to4, IPv4-compatible or Teredo.
  predicate Wraps(a: Addr, o: Octets4) {
    a.V6? && EmbeddedIPv4(a.o16).Some? && To4(EmbeddedIPv4(a.o16).value) == Some(o)
  }

  /** No list of networks opens a never-dialable address, nor one wrapping it, with a single
      exception: ::1, whose IPv4-compatible reading 0.0.0.1 is set aside so that an operator
      may list loopback. */
  lemma NoListOpensTheReserved(nets: seq<Prefix>, requireListed: bool, dialled: Addr, o: Octets4)
    requires DialGuard(nets, requireListed, dialled).Admit?
    ensures !NeverDialable(Unmap(dialled))
    ensures Wraps(Unmap(dialled), o) ==>
      (NeverDialable(V4(o)) <==> Unmap(dialled) == V6(LOOPBACK6))
  {
    var a := Unmap(dialled);
    if Wraps(a, o) && a == V6(LOOPBACK6) {
      LoopbackWraps();
      ThisNetworkIsFirstOctetZero(o);
    }
  }

  /** And an operator who lists ::1 does open it, though 0.0.0.1 is never dialable. */
  lemma ListedLoopbackIsDialled()
    ensures DialGuard([Prefix(V6(LOOPBACK6), 128)], true, V6(LOOPBACK6)).Admit?
    ensures Wraps(V6(LOOPBACK6), [0, 0, 0, 1]) && NeverDialable(V4([0, 0, 0, 1]))
  {
    LoopbackWraps();
    LoopbackIsNotMapped(LOOPBACK6);
    ThisNetworkIsFirstOctetZero([0, 0, 0, 1]);
    LoopbackMayBeDialled();
    ZeroPrefix(LOOPBACK6, LOOPBACK6, 128);
    var nets := [Prefix(V6(LOOPBACK6), 128)];
    assert Contains(nets[0], V6(LOOPBACK6));
  }

  lemma LoopbackMayBeDialled()
    ensures !NeverDialable(V6(LOOPBACK6))
  {
    var a := V6(LOOPBACK6);
    LoopbackIsNotMapped(LOOPBACK6);
    assert a.o16[0] == 0 && a.o16[15] == 1 && UNSPECIFIED6[15] == 0;
    SecondOctetsDiffer(NAT64_WELL_KNOWN, LOOPBACK6, 96);
    SecondOctetsDiffer(NAT64_LOCAL, LOOPBACK6, 48);
  }

  lemma SecondOctetsDiffer(a: Text, b: Text, bits: nat)
    requires |a| == |b| >= 2 && a[1] != b[1] && bits >= 16
    ensures !SharesPrefix(a, b, bits)
  {
    assert !SharesPrefix(a[1..], b[1..], bits - 8);
  }

  lemma LoopbackIsNotMapped(ip: NetIP)
    requires ip == LOOPBACK6
    ensures To4(ip) == None
  {
    assert ip[..12][10] == 0 && MAPPED_PREFIX[10] == 0xff;
  }

  lemma FirstOctetsDiffer(a: Text, b: Text, bits: nat)
    requires |a| == |b| && a != [] && a[0] != b[0] && bits >= 8
    ensures !SharesPrefix(a, b, bits)
  {
  }

  lemma LoopbackWraps()
    ensures To4(LOOPBACK6) == None && EmbeddedIPv4(LOOPBACK6).Some?
    ensures To4(EmbeddedIPv4(LOOPBACK6).value) == Some([0, 0, 0, 1])
  {
    var ip: NetIP := LOOPBACK6;
    LoopbackIsNotMapped(ip);
    FirstOctetsDiffer(SIX_TO_FOUR, ip, 16);
    assert IPV4_COMPATIBLE[..12] == ip[..12];
    ZeroPrefix(IPV4_COMPATIBLE, ip, 96);
    assert ip[12..][3] == 1;
    assert EmbeddedIPv4(ip) == Some(IPv4(0, 0, 0, 1));
  }

  lemma {:induction false} ZeroPrefix(a: Text, b: Text, bits: nat)
    requires |a| == |b| && bits % 8 == 0 && bits / 8 <= |a| && a[..bits / 8] == b[..bits / 8]
    ensures SharesPrefix(a, b, bits)
  {
    if bits > 0 {
      assert a[0] == a[..bits / 8][0] && b[0] == b[..bits / 8][0];
      assert a[1..][..(bits - 8) / 8] == a[..bits / 8][1..];
      assert b[1..][..(bits - 8) / 8] == b[..bits / 8][1..];
      ZeroPrefix(a[1..], b[1..], bits - 8);
    }
  }
}
