/** Which addresses the guard lets through, as a table of ranges (dialguard.go, cimd.go). */
module AddressTable {
  import opened Wrappers
  import opened Bytes
  import opened Addresses

  // ---------- IPv4 ----------

  // The 32 bits of four octets from i on.
  function Number(o: Text, i: nat): int
    requires i + 4 <= |o|
  {
    ((o[i] as int * 256 + o[i + 1]) * 256 + o[i + 2]) * 256 + o[i + 3]
  }

  // 0/8, 10/8, 100.64/10, 127/8, 169.254/16, 172.16/12, 192.168/16 and 224/4.
  predicate Inside4(n: int) {
    || n < 0x0100_0000
    || 0x0A00_0000 <= n < 0x0B00_0000
    || 0x6440_0000 <= n < 0x6480_0000
    || 0x7F00_0000 <= n < 0x8000_0000
    || 0xA9FE_0000 <= n < 0xA9FF_0000
    || 0xAC10_0000 <= n < 0xAC20_0000
    || 0xC0A8_0000 <= n < 0xC0A9_0000
    || 0xE000_0000 <= n < 0xF000_0000
  }

  // 0/8, 169.254/16, 224/4 and 100.100.100.200.
  predicate Never4(n: int) {
    n < 0x0100_0000 || 0xA9FE_0000 <= n < 0xA9FF_0000 || 0xE000_0000 <= n < 0xF000_0000 || n == 0x6464_64C8
  }

  lemma PublicV4(o: Octets4, ip: NetIP)
    requires To4(ip) == Some(o)
    ensures IsPublicIP(ip) <==> !Inside4(Number(o, 0))
  {
  }

  lemma NeverV4(o: Octets4)
    ensures NeverDialable(V4(o)) <==> Never4(Number(o, 0))
  {
    ThisNetworkIsFirstOctetZero(o);
  }

  // ---------- prefixes ----------

  lemma {:induction false} WholeOctets(a: Text, b: Text, k: nat)
    requires |a| == |b| && k <= |a|
    ensures SharesPrefix(a, b, 8 * k) <==> a[..k] == b[..k]
  {
    if k > 0 {
      WholeOctets(a[1..], b[1..], k - 1);
      assert a[..k] == [a[0]] + a[1..][..k - 1];
      assert b[..k] == [b[0]] + b[1..][..k - 1];
    }
  }

  // How many values of the octet that a prefix ends in agree with it in this many bits.
  const BLOCK: seq<int> := [256, 128, 64, 32, 16, 8, 4, 2]

  lemma BlockIsAPower(r: nat)
    requires r < 8
    ensures PowerOf2(8 - r) == BLOCK[r]
  {
    assert PowerOf2(2) == 4 && PowerOf2(3) == 8 && PowerOf2(4) == 16;
    assert PowerOf2(5) == 32 && PowerOf2(6) == 64 && PowerOf2(7) == 128 && PowerOf2(8) == 256;
  }

  // The octets that the prefix covers are the same, and so are the bits it covers of the next.
  predicate InBlock(base: Text, o: Text, bits: nat)
    requires |base| == |o| && bits <= 8 * |o|
  {
    && base[..bits / 8] == o[..bits / 8]
    && (bits % 8 != 0 ==> base[bits / 8] / BLOCK[bits % 8] == o[bits / 8] / BLOCK[bits % 8])
  }

  lemma {:induction false} PrefixesAreBlocks(a: Text, b: Text, bits: nat)
    requires |a| == |b| && bits <= 8 * |a|
    ensures SharesPrefix(a, b, bits) <==> InBlock(a, b, bits)
  {
    if bits >= 8 {
      PrefixesAreBlocks(a[1..], b[1..], bits - 8);
      assert a[..bits / 8] == [a[0]] + a[1..][..(bits - 8) / 8];
      assert b[..bits / 8] == [b[0]] + b[1..][..(bits - 8) / 8];
    } else {
      BlockIsAPower(bits);
    }
  }

  // ---------- IPv6 ----------

  predicate StartsWith(o: Octets16, octets: Text) { |octets| <= 16 && o[..|octets|] == octets }

  // The IPv4 address that a 6to4, IPv4-compatible or Teredo address stands for.
  function Wrapped(o: Octets16): Option<int> {
    if StartsWith(o, [0x20, 0x02]) then Some(Number(o, 2))
    else if StartsWith(o, [0, 0, 0, 0, 0, 0, 0, 0, 0, 0, 0, 0]) && Number(o, 12) != 0 then Some(Number(o, 12))
    else if StartsWith(o, [0x20, 0x01, 0, 0]) then Some(0xFFFF_FFFF - Number(o, 12))
    else None
  }

  // 64:ff9b::/96 and 64:ff9b:1::/48.
  predicate Translates(o: Octets16) {
    || StartsWith(o, [0x00, 0x64, 0xff, 0x9b, 0, 0, 0, 0, 0, 0, 0, 0])
    || StartsWith(o, [0x00, 0x64, 0xff, 0x9b, 0x00, 0x01])
  }

  predicate IsLoopback6(o: Octets16) { o == [0, 0, 0, 0, 0, 0, 0, 0, 0, 0, 0, 0, 0, 0, 0, 1] }

  // ::, ::1, fc00::/7, fe80::/10, ff00::/8, what is translated, and what wraps one inside.
  predicate Inside6(o: Octets16) {
    var high := o[0] as int * 256 + o[1];
    || o == [0, 0, 0, 0, 0, 0, 0, 0, 0, 0, 0, 0, 0, 0, 0, 0] || IsLoopback6(o)
    || 0xfc00 <= high < 0xfe00 || 0xfe80 <= high < 0xfec0 || 0xff00 <= high
    || Translates(o)
    || (Wrapped(o).Some? && Inside4(Wrapped(o).value))
  }

  // ::, fe80::/10, ff00::/8, what is translated, and what wraps one never dialled, save ::1.
  predicate Never6(o: Octets16) {
    var high := o[0] as int * 256 + o[1];
    || o == [0, 0, 0, 0, 0, 0, 0, 0, 0, 0, 0, 0, 0, 0, 0, 0]
    || 0xfe80 <= high < 0xfec0 || 0xff00 <= high
    || Translates(o)
    || (Wrapped(o).Some? && Never4(Wrapped(o).value) && !IsLoopback6(o))
  }

  lemma StartsWithPrefix(base: Octets16, o: Octets16, k: nat)
    requires k <= 16 && !Mapped(o)
    ensures InV6Net(base, 8 * k, o) <==> o[..k] == base[..k]
  {
    WholeOctets(base, o, k);
  }

  lemma TranslatesIsNAT64(o: Octets16)
    requires !Mapped(o)
    ensures IsNAT64(o) <==> Translates(o)
  {
    StartsWithPrefix(NAT64_WELL_KNOWN, o, 12);
    StartsWithPrefix(NAT64_LOCAL, o, 6);
  }

  lemma PrefixesOfWrappers(o: Octets16)
    requires !Mapped(o)
    ensures InV6Net(SIX_TO_FOUR, 16, o) <==> StartsWith(o, [0x20, 0x02])
    ensures InV6Net(IPV4_COMPATIBLE, 96, o) <==> StartsWith(o, [0, 0, 0, 0, 0, 0, 0, 0, 0, 0, 0, 0])
    ensures InV6Net(TEREDO, 32, o) <==> StartsWith(o, [0x20, 0x01, 0, 0])
  {
    StartsWithPrefix(SIX_TO_FOUR, o, 2);
    StartsWithPrefix(IPV4_COMPATIBLE, o, 12);
    StartsWithPrefix(TEREDO, o, 4);
  }

  lemma LastFour(o: Octets16)
    ensures Number(o, 12) == 0 <==> o[12..] == [0, 0, 0, 0]
    ensures Number([255 - o[12], 255 - o[13], 255 - o[14], 255 - o[15]], 0) == 0xFFFF_FFFF - Number(o, 12)
  {
    assert o[12..] == [o[12], o[13], o[14], o[15]];
  }

  lemma WrappedIsEmbedded(o: Octets16)
    requires !Mapped(o)
    ensures EmbeddedIPv4(o).Some? <==> Wrapped(o).Some?
    ensures EmbeddedIPv4(o).Some? ==> Number(To4(EmbeddedIPv4(o).value).value, 0) == Wrapped(o).value
  {
    PrefixesOfWrappers(o);
    LastFour(o);
  }

  lemma PublicV6(o: Octets16)
    requires !Mapped(o)
    ensures IsPublicIP(o) <==> !Inside6(o)
  {
    TranslatesIsNAT64(o);
    WrappedIsEmbedded(o);
    if EmbeddedIPv4(o).Some? { PublicV4(To4(EmbeddedIPv4(o).value).value, EmbeddedIPv4(o).value); }
  }

  lemma NeverV6(o: Octets16)
    requires !Mapped(o)
    ensures NeverDialable(V6(o)) <==> Never6(o)
  {
    TranslatesIsNAT64(o);
    WrappedIsEmbedded(o);
    if EmbeddedIPv4(o).Some? { NeverV4(To4(EmbeddedIPv4(o).value).value); }
  }

  // ---------- the guard ----------

  // The IPv4 number of an address, itself or mapped.
  function AsV4(a: Addr): Option<int> {
    match a
    case V4(o) => Some(Number(o, 0))
    case V6(o) => if StartsWith(o, [0, 0, 0, 0, 0, 0, 0, 0, 0, 0, 0xff, 0xff]) then Some(Number(o, 12)) else None
  }

  predicate Never(a: Addr) {
    match AsV4(a) case Some(n) => Never4(n) case None => Never6(a.o16)
  }

  predicate Inside(a: Addr) {
    match AsV4(a) case Some(n) => Inside4(n) case None => Inside6(a.o16)
  }

  // The last four octets of a mapped address, and the address otherwise.
  function OctetsOf(a: Addr): Text {
    match a
    case V4(o) => o
    case V6(o) => if AsV4(a).Some? then o[12..] else o
  }

  function PrefixOctets(p: Prefix): Text {
    match p.base case V4(o) => o case V6(o) => o
  }

  // Some network of the list, of the same family, has the address.
  ghost predicate Listed(nets: seq<Prefix>, a: Addr) {
    exists i :: 0 <= i < |nets| && |PrefixOctets(nets[i])| == |OctetsOf(a)|
      && nets[i].bits <= 8 * |OctetsOf(a)| && InBlock(PrefixOctets(nets[i]), OctetsOf(a), nets[i].bits)
  }

  lemma ListedIsInNets(nets: seq<Prefix>, a: Addr)
    requires forall p :: p in nets ==> p.bits <= 8 * |PrefixOctets(p)|
    ensures InNets(nets, Unmap(a)) <==> Listed(nets, a)
  {
    forall i | 0 <= i < |nets|
      ensures Contains(nets[i], Unmap(a)) <==>
        |PrefixOctets(nets[i])| == |OctetsOf(a)| && InBlock(PrefixOctets(nets[i]), OctetsOf(a), nets[i].bits)
    {
      var (p, o) := (PrefixOctets(nets[i]), OctetsOf(a));
      if |p| == |o| { PrefixesAreBlocks(p, o, nets[i].bits); }
    }
  }

  lemma Classified(a: Addr)
    ensures NeverDialable(Unmap(a)) <==> Never(a)
    ensures IsPublicIP(AsSlice(Unmap(a))) <==> !Inside(a)
  {
    match Unmap(a)
    case V4(o) => NeverV4(o); PublicV4(o, o);
    case V6(o) => NeverV6(o); PublicV6(o);
  }

  /** The guard is this table, for every list of networks: what is never dialled is refused as
      reserved; what a listed network has is let through; then, where only what is listed may be
      dialled, the rest is refused; and otherwise just what lies inside. */
  lemma TheGuardIsTheTable(nets: seq<Prefix>, requireListed: bool, a: Addr)
    requires forall p :: p in nets ==> p.bits <= 8 * |PrefixOctets(p)|
    ensures DialGuard(nets, requireListed, a) ==
      if Never(a) then Reserved
      else if Listed(nets, a) then Admit
      else if requireListed then NotListed
      else if Inside(a) then NotPublic
      else Admit
  {
    Classified(a);
    ListedIsInNets(nets, a);
  }
}
