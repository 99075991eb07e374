/** IP addresses as Go's net/netip classifies them, and the two ends of a softwire. */
module Addresses {

  type U32 = x: int | 0 <= x < 0x1_0000_0000
  type U128 = x: int | 0 <= x < 0x1_0000_0000_0000_0000_0000_0000_0000_0000

  /** `NoAddr` is the zero netip.Addr: neither IPv4 nor IPv6. */
  datatype Addr = NoAddr | V4(v4: U32) | V6(v6: U128) {

    predicate Is4() { V4? }

    /** True of IPv4-mapped addresses too, as in net/netip. */
    predicate Is6() { V6? }

    /** ::ffff:0:0/96 */
    predicate Is4In6() { V6? && v6 / 0x1_0000_0000 == 0xffff }

    /** The IPv4 address of an IPv4-mapped one; any other address itself. */
    function Unmap(): Addr {
      if Is4In6() then V4(v6 % 0x1_0000_0000) else this
    }

    predicate IsUnspecified() {
      this == V4(0) || this == V6(0)
    }

    predicate IsLoopback() {
      match Unmap()
      case NoAddr => false
      case V4(v) => v / 0x100_0000 == 127
      case V6(v) => v == 1
    }

    predicate IsMulticast() {
      match Unmap()
      case NoAddr => false
      case V4(v) => v / 0x1000_0000 == 0xe
      case V6(v) => v / 0x100_0000_0000_0000_0000_0000_0000_0000 == 0xff
    }

    predicate IsLinkLocalUnicast() {
      match Unmap()
      case NoAddr => false
      case V4(v) => v / 0x1_0000 == 0xa9fe
      case V6(v) => v / 0x40_0000_0000_0000_0000_0000_0000_0000 == 0x3fa
    }

    predicate IsGlobalUnicast() {
      && this != NoAddr
      && this != V4(0) && this != V4(0xffff_ffff) && this != V6(0)
      && !IsLoopback() && !IsMulticast() && !IsLinkLocalUnicast()
    }
  }

  /** The two ends of the softwire. */
  datatype Endpoints = Endpoints(b4: Addr, aftr: Addr)

  /** An address the datapath takes as a softwire end: IPv6, and not IPv4-mapped. */
  predicate IsSoftwireAddr(a: Addr) {
    a.Is6() && !a.Is4In6()
  }

  /** validateSoftwireAddrs: both ends are checked before any map is written. */
  predicate ValidEndpoints(to: Endpoints) {
    IsSoftwireAddr(to.b4) && IsSoftwireAddr(to.aftr)
  }

  /** UsableB4: what the controller takes as a B4. */
  predicate UsableB4(a: Addr) {
    a.Is6() && a.IsGlobalUnicast()
  }

  /** The one way a B4 can be usable to the controller and refused by the datapath. */
  lemma UsableButRefused(a: Addr)
    requires UsableB4(a)
    ensures IsSoftwireAddr(a) <==> !a.Is4In6()
  {
  }

  /** ::ffff:192.0.2.1 is such an address. */
  lemma MappedSourceIsUsable()
    ensures UsableB4(V6(0xffff_c000_0201)) && V6(0xffff_c000_0201).Is4In6()
  {
  }
}
