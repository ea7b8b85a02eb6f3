/** The constants of the crate root and the default point-to-point tun
    configuration that `Server::spawn` falls back to. Octets are `bv8`, so `<<`
    discards the bits shifted out exactly as Rust's `u8` shift does. */
module Config {
  import opened Wrappers

  /** `ALPN_PREFIX`: the namespace every protocol identifier of this crate starts with. */
  const AlpnPrefix: string := "ptunp/v0"

  /** An `Ipv4Addr`, as its four octets in network order. */
  datatype Ipv4 = Ipv4(a: bv8, b: bv8, c: bv8, d: bv8)

  /** `OUR_IP`: the local end of the tunnel. */
  const OurIp: Ipv4 := Ipv4(10, 0, 0, 0)

  /** `THEIR_IP`: the remote end of the tunnel. */
  const TheirIp: Ipv4 := Ipv4(10, 0, 0, 1)

  /** `u8::MAX`. */
  const U8Max: bv8 := 0xFF

  /** The default netmask `(255, 255, 255, u8::MAX << 1)`. */
  const DefaultNetmask: Ipv4 := Ipv4(0xFF, 0xFF, 0xFF, U8Max << 1)

  /** The address as one 32-bit word, first octet most significant. */
  function Bits(ip: Ipv4): (w: bv32)
    ensures (w >> 24) as bv8 == ip.a && ((w >> 16) & 0xFF) as bv8 == ip.b
    ensures ((w >> 8) & 0xFF) as bv8 == ip.c && (w & 0xFF) as bv8 == ip.d
  {
    (ip.a as bv32 << 24) | (ip.b as bv32 << 16) | (ip.c as bv32 << 8) | ip.d as bv32
  }

  /** The netmask word whose `len` leading bits are set and whose others are clear. */
  function PrefixMask(len: nat): (m: bv32)
    requires len <= 32
  {
    if len == 0 then 0 else 0xFFFF_FFFF << (32 - len)
  }

  /** The network part of `ip` under `mask`: the octet-wise AND. */
  function Network(ip: Ipv4, mask: Ipv4): (n: Ipv4)
    ensures Bits(n) == Bits(ip) & Bits(mask)
  {
    Ipv4(ip.a & mask.a, ip.b & mask.b, ip.c & mask.c, ip.d & mask.d)
  }

  /** The part of a `tun::Configuration` that this crate sets; `None` is "left at
      the library default". */
  datatype TunConfig = TunConfig(
    address: Option<Ipv4>,
    netmask: Option<Ipv4>,
    destination: Option<Ipv4>,
    up: bool,
    ensureRootPrivileges: bool)

  /** The configuration built inside `unwrap_or_else` when the builder carries
      none; `linux` says whether the crate was compiled for Linux, where the
      configuration also asks for root privileges. */
  function DefaultTunConfig(linux: bool): (c: TunConfig)
    ensures c.address == Some(OurIp) && c.destination == Some(TheirIp)
    ensures c.netmask.Some? && Bits(c.netmask.value) == PrefixMask(31)
    ensures c.up
    ensures c.ensureRootPrivileges <==> linux
  {
    TunConfig(Some(OurIp), Some(DefaultNetmask), Some(TheirIp), true, linux)
  }

  /** In `u8` arithmetic `u8::MAX << 1` drops the top bit instead of overflowing:
      the last octet of the default netmask is 254 = (255 * 2) mod 256. */
  lemma NetmaskLastOctet()
    ensures DefaultNetmask.d == 254
    ensures DefaultNetmask.d as int == (U8Max as int * 2) % 256
  {
  }

  /** The two tunnel ends are distinct, lie in the same /31 under the default
      netmask, and that /31 holds no other address. */
  lemma PeersShareSlash31()
    ensures OurIp != TheirIp
    ensures Bits(DefaultNetmask) == PrefixMask(31)
    ensures Network(OurIp, DefaultNetmask) == Network(TheirIp, DefaultNetmask)
    ensures forall ip :: Network(ip, DefaultNetmask) == Network(OurIp, DefaultNetmask)
                         <==> ip == OurIp || ip == TheirIp
  {
  }
}
