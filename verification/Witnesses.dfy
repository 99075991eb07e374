/** Inputs at which the datapath falls short: one for each exact condition that can fail. */
module Witnesses {
  import opened Wrappers
  import opened Addresses
  import opened ByteFields
  import opened Checksum
  import opened MssClamp
  import Fragmentation
  import opened Datapath
  import PathMtu

  /** The four bytes at `i`. */
  predicate Has(b: Bytes, i: nat, w: Byte, x: Byte, y: Byte, z: Byte) {
    i + 4 <= |b| && b[i] == w && b[i + 1] == x && b[i + 2] == y && b[i + 3] == z
  }

  lemma SumFrom(b: Bytes, i: nat)
    requires i + 4 <= |b|
    ensures Sum(b[i..]) == (b[i] as int) + 0x100 * (b[i + 1] as int) + b[i + 2] + 0x100 * (b[i + 3] as int) + Sum(b[i + 4..])
  {
    assert b[i..][2..] == b[i + 2..] && b[i + 2..][2..] == b[i + 4..];
  }

  lemma SumEnds(b: Bytes, n: nat)
    requires n == |b|
    ensures Sum(b) == Sum(b[0..]) && Sum(b[n..]) == 0
  {
    assert b[0..] == b;
  }

  // ---------------------------------------------------------------- the TTL

  /** A header that verifies with the checksum 0xfffe. */
  predicate IsHeader(h: Bytes) {
    && |h| == 20
    && Has(h, 0, 0x45, 0, 0, 20) && Has(h, 4, 0, 0, 0, 0) && Has(h, 8, 64, 17, 0xfe, 0xff)
    && Has(h, 12, 0x7b, 0xda, 0, 0) && Has(h, 16, 0, 0, 0, 0)
  }

  lemma HeaderSum(h: Bytes)
    requires IsHeader(h)
    ensures Sum(h) == 131070
  {
    SumEnds(h, 20);
    SumFrom(h, 0);
    SumFrom(h, 4);
    SumFrom(h, 8);
    SumFrom(h, 12);
    SumFrom(h, 16);
  }

  function Header(): (h: Bytes)
    ensures IsHeader(h)
  {
    [0x45, 0, 0, 20, 0, 0, 0, 0, 64, 17, 0xfe, 0xff, 0x7b, 0xda, 0, 0, 0, 0, 0, 0]
  }

  /** Decreasing its TTL leaves it valid, with another checksum than a recomputed one. */
  lemma TtlNotRecomputed() returns (h: Bytes)
    ensures IsHeader(h) && Accepted(Sum(h)) && Accepted(Sum(DecreaseTtl(h)))
    ensures WordAt(DecreaseTtl(h), CHECK) == ONES && Computed(DecreaseTtl(h)) == 0
  {
    h := Header();
    HeaderSum(h);
    TtlAccepted(h);
    TtlCheckWord(h);
    AcceptedIsComputed(DecreaseTtl(h));
    TtlRecomputed(h);
  }

  // ---------------------------------------------------------------- the MSS

  predicate IsIp(b: Bytes) {
    && |b| == 20
    && Has(b, 0, 0x45, 0, 0, 48) && Has(b, 4, 0, 0, 0, 0) && Has(b, 8, 64, 6, 0, 0)
    && Has(b, 12, 10, 0, 0, 2) && Has(b, 16, 192, 0, 2, 1)
  }

  /** A SYN with a NOP before its MSS of 1460, and a valid checksum. */
  predicate IsTcp(b: Bytes) {
    && |b| == 28
    && Has(b, 0, 0x04, 0xd2, 0, 80) && Has(b, 4, 0, 0, 0, 1) && Has(b, 8, 0, 0, 0, 0)
    && Has(b, 12, 0x70, 2, 255, 255) && Has(b, 16, 4, 172, 0, 0) && Has(b, 20, 1, 2, 4, 5)
    && Has(b, 24, 180, 1, 1, 0)
  }

  /** Its pseudo-header: 10.0.0.2, 192.0.2.1, protocol 6, 28 bytes. */
  predicate IsPseudo(b: Bytes) {
    && |b| == 12
    && Has(b, 0, 10, 0, 0, 2) && Has(b, 4, 192, 0, 2, 1) && Has(b, 8, 0, 6, 0, 28)
  }

  lemma PseudoSum(b: Bytes)
    requires IsPseudo(b)
    ensures Sum(b) == 9676
  {
    SumEnds(b, 12);
    SumFrom(b, 0);
    SumFrom(b, 4);
    SumFrom(b, 8);
  }

  lemma SynSum(b: Bytes)
    requires IsTcp(b)
    ensures Sum(b) == 186929
  {
    SumEnds(b, 28);
    SumFrom(b, 0);
    SumFrom(b, 4);
    SumFrom(b, 8);
    SumFrom(b, 12);
    SumFrom(b, 16);
    SumFrom(b, 20);
    SumFrom(b, 24);
  }

  lemma SynVerifies(ps: Bytes, tcp: Bytes)
    requires IsPseudo(ps) && IsTcp(tcp)
    ensures Accepted(Sum(ps) + Sum(tcp))
  {
    PseudoSum(ps);
    SynSum(tcp);
  }

  function Ip(): (b: Bytes)
    ensures IsIp(b)
  {
    [0x45, 0, 0, 48, 0, 0, 0, 0, 64, 6, 0, 0, 10, 0, 0, 2, 192, 0, 2, 1]
  }

  function Tcp(): (b: Bytes)
    ensures IsTcp(b)
  {
    [0x04, 0xd2, 0, 80, 0, 0, 0, 1, 0, 0, 0, 0] + [0x70, 2, 255, 255, 4, 172, 0, 0] + [1, 2, 4, 5, 180, 1, 1, 0]
  }

  function Pseudo(): (b: Bytes)
    ensures IsPseudo(b)
  {
    [10, 0, 0, 2, 192, 0, 2, 1, 0, 6, 0, 28]
  }

  /** The walk finds its MSS at an odd offset. */
  lemma SynIsExcessive(b: Bytes, ip: Bytes, tcp: Bytes)
    requires b == ip + tcp && IsIp(ip) && IsTcp(tcp)
    ensures Excessive(b, 1400) == Some(21) && MssSkew(b, 21, 1400) == 60
  {
    assert |b| == 48 && b[0] == 0x45 && b[6] == 0 && b[7] == 0 && b[9] == 6;
    assert b[32] == 0x70 && b[33] == 2 && b[40] == 1 && b[41] == 2 && b[42] == 4 && b[43] == 5 && b[44] == 180;
    assert IsSyn(b) && HeaderLen(b) == 28;
    assert FindMss(b, 28, 21, 9) == Some(21);
    assert FindMss(b, 28, 20, 10) == Some(21);
    assert Mss(b, 21) == 1460;
  }

  lemma OddClampBroken(b: Bytes, ip: Bytes, tcp: Bytes, ps: Bytes, was: nat, now: nat)
    requires b == ip + tcp && IsIp(ip) && IsTcp(tcp) && IsPseudo(ps)
    requires was == Sum(ps) + Sum(b[TCP..48]) && now == Sum(ps) + Sum(Clamped(b, 1400)[TCP..48])
    ensures Accepted(was) && !Accepted(now)
  {
    assert b[TCP..48] == tcp;
    SynVerifies(ps, tcp);
    SynIsExcessive(b, ip, tcp);
    ClampKeepsChecksum(b, 1400, 48, was, now, Sum(ps), 21);
  }

  /** Such bytes. */
  lemma OddSyn() returns (ip: Bytes, tcp: Bytes, ps: Bytes)
    ensures IsIp(ip) && IsTcp(tcp) && IsPseudo(ps)
  {
    ip, tcp, ps := Ip(), Tcp(), Pseudo();
  }

  /** Clamping it to 1400 breaks its checksum. */
  lemma OddClampBreaks() returns (ip: Bytes, tcp: Bytes, ps: Bytes, b: Bytes)
    ensures IsIp(ip) && IsTcp(tcp) && IsPseudo(ps) && b == ip + tcp
    ensures Accepted(Sum(ps) + Sum(b[TCP..48]))
    ensures !Accepted(Sum(ps) + Sum(Clamped(b, 1400)[TCP..48]))
  {
    ip, tcp, ps := OddSyn();
    b := ip + tcp;
    OddClampBroken(b, ip, tcp, ps, Sum(ps) + Sum(b[TCP..48]), Sum(ps) + Sum(Clamped(b, 1400)[TCP..48]));
  }

  predicate IsShortIp(b: Bytes) {
    && |b| == 20
    && Has(b, 0, 0x45, 0, 0, 40) && Has(b, 4, 0, 0, 0, 0) && Has(b, 8, 64, 6, 0, 0)
    && Has(b, 12, 10, 0, 0, 2) && Has(b, 16, 192, 0, 2, 1)
  }

  /** A SYN of 20 bytes by its IPv4 length, with a valid checksum, whose header claims 28 */
  predicate IsShortTcp(b: Bytes) {
    && |b| == 20
    && Has(b, 0, 0x04, 0xd2, 0, 80) && Has(b, 4, 0, 0, 0, 1) && Has(b, 8, 0, 0, 0, 0)
    && Has(b, 12, 0x70, 2, 255, 255) && Has(b, 16, 190, 188, 0, 0)
  }

  /** and finds an MSS of 1460 in the padding of the frame. */
  predicate IsPadding(b: Bytes) {
    && |b| == 8
    && Has(b, 0, 2, 4, 5, 180) && Has(b, 4, 0, 0, 0, 0)
  }

  predicate IsShortPseudo(b: Bytes) {
    && |b| == 12
    && Has(b, 0, 10, 0, 0, 2) && Has(b, 4, 192, 0, 2, 1) && Has(b, 8, 0, 6, 0, 20)
  }

  function ShortIp(): (b: Bytes)
    ensures IsShortIp(b)
  {
    [0x45, 0, 0, 40, 0, 0, 0, 0, 64, 6, 0, 0, 10, 0, 0, 2, 192, 0, 2, 1]
  }

  function ShortTcp(): (b: Bytes)
    ensures IsShortTcp(b)
  {
    [0x04, 0xd2, 0, 80, 0, 0, 0, 1, 0, 0, 0, 0, 0x70, 2, 255, 255, 190, 188, 0, 0]
  }

  function Padding(): (b: Bytes)
    ensures IsPadding(b)
  {
    [2, 4, 5, 180, 0, 0, 0, 0]
  }

  function ShortPseudo(): (b: Bytes)
    ensures IsShortPseudo(b)
  {
    [10, 0, 0, 2, 192, 0, 2, 1, 0, 6, 0, 20]
  }

  lemma ShortVerifies(ps: Bytes, tcp: Bytes)
    requires IsShortPseudo(ps) && IsShortTcp(tcp)
    ensures Accepted(Sum(ps) + Sum(tcp))
  {
    assert Sum(ps) == 7628 by {
      SumEnds(ps, 12);
      SumFrom(ps, 0);
      SumFrom(ps, 4);
      SumFrom(ps, 8);
    }
    assert Sum(tcp) == 188977 by {
      SumEnds(tcp, 20);
      SumFrom(tcp, 0);
      SumFrom(tcp, 4);
      SumFrom(tcp, 8);
      SumFrom(tcp, 12);
      SumFrom(tcp, 16);
    }
  }

  lemma PaddedIsExcessive(b: Bytes, ip: Bytes, tcp: Bytes, pad: Bytes)
    requires b == ip + tcp + pad && IsShortIp(ip) && IsShortTcp(tcp) && IsPadding(pad)
    ensures Excessive(b, 1400) == Some(20) && Mss(b, 20) == 1460 && GetU16(b[2..]) == 40 && b[TCP..40] == tcp
  {
    assert |b| == 48 && b[0] == 0x45 && b[2] == 0 && b[3] == 40 && b[6] == 0 && b[7] == 0 && b[9] == 6;
    assert b[32] == 0x70 && b[33] == 2 && b[40] == 2 && b[41] == 4 && b[42] == 5 && b[43] == 180;
    assert IsSyn(b) && HeaderLen(b) == 28;
    assert LookAt(b, 28, 20) == Found;
    assert FindMss(b, 28, 20, 10) == Some(20);
  }

  lemma PaddedClampBroken(b: Bytes, ip: Bytes, tcp: Bytes, pad: Bytes, ps: Bytes, was: nat, now: nat)
    requires b == ip + tcp + pad && IsShortIp(ip) && IsShortTcp(tcp) && IsPadding(pad) && IsShortPseudo(ps)
    requires was == Sum(ps) + Sum(b[TCP..40]) && now == Sum(ps) + Sum(Clamped(b, 1400)[TCP..40])
    ensures GetU16(b[2..]) == 40 && Accepted(was) && !Accepted(now)
  {
    PaddedIsExcessive(b, ip, tcp, pad);
    ShortVerifies(ps, tcp);
    ClampOutside(b, 1400, 40, was, now, Sum(ps), 20);
  }

  /** Such bytes. */
  lemma PaddedSyn() returns (ip: Bytes, tcp: Bytes, pad: Bytes, ps: Bytes)
    ensures IsShortIp(ip) && IsShortTcp(tcp) && IsPadding(pad) && IsShortPseudo(ps)
  {
    ip, tcp, pad, ps := ShortIp(), ShortTcp(), Padding(), ShortPseudo();
  }

  /** Clamping it to 1400 breaks its checksum too. */
  lemma PaddedClampBreaks() returns (ip: Bytes, tcp: Bytes, pad: Bytes, ps: Bytes, b: Bytes)
    ensures IsShortIp(ip) && IsShortTcp(tcp) && IsPadding(pad) && IsShortPseudo(ps) && b == ip + tcp + pad
    ensures GetU16(b[2..]) == 40 && Accepted(Sum(ps) + Sum(b[TCP..40]))
    ensures !Accepted(Sum(ps) + Sum(Clamped(b, 1400)[TCP..40]))
  {
    ip, tcp, pad, ps := PaddedSyn();
    b := ip + tcp + pad;
    PaddedClampBroken(b, ip, tcp, pad, ps, Sum(ps) + Sum(b[TCP..40]), Sum(ps) + Sum(Clamped(b, 1400)[TCP..40]));
  }

  predicate IsSplitIp(b: Bytes) {
    && |b| == 20
    && Has(b, 0, 0x45, 0, 0, 43) && Has(b, 4, 0, 0, 0, 0) && Has(b, 8, 64, 6, 0, 0)
    && Has(b, 12, 10, 0, 0, 2) && Has(b, 16, 192, 0, 2, 1)
  }

  /** The same with an IPv4 length that ends between the two bytes of the MSS. */
  predicate IsSplitTcp(b: Bytes) {
    && |b| == 20
    && Has(b, 0, 0x04, 0xd2, 0, 80) && Has(b, 4, 0, 0, 0, 1) && Has(b, 8, 0, 0, 0, 0)
    && Has(b, 12, 0x70, 2, 255, 255) && Has(b, 16, 183, 181, 0, 0)
  }

  predicate IsSplitPseudo(b: Bytes) {
    && |b| == 12
    && Has(b, 0, 10, 0, 0, 2) && Has(b, 4, 192, 0, 2, 1) && Has(b, 8, 0, 6, 0, 23)
  }

  function SplitIp(): (b: Bytes)
    ensures IsSplitIp(b)
  {
    [0x45, 0, 0, 43, 0, 0, 0, 0, 64, 6, 0, 0, 10, 0, 0, 2, 192, 0, 2, 1]
  }

  function SplitTcp(): (b: Bytes)
    ensures IsSplitTcp(b)
  {
    [0x04, 0xd2, 0, 80, 0, 0, 0, 1, 0, 0, 0, 0, 0x70, 2, 255, 255, 183, 181, 0, 0]
  }

  function SplitPseudo(): (b: Bytes)
    ensures IsSplitPseudo(b)
  {
    [10, 0, 0, 2, 192, 0, 2, 1, 0, 6, 0, 23]
  }

  lemma SplitPseudoSum(ps: Bytes)
    requires IsSplitPseudo(ps)
    ensures Sum(ps) == 8396
  {
    SumEnds(ps, 12);
    SumFrom(ps, 0);
    SumFrom(ps, 4);
    SumFrom(ps, 8);
  }

  lemma SplitTcpSum(tcp: Bytes)
    requires IsSplitTcp(tcp)
    ensures Sum(tcp) == 187178
  {
    SumEnds(tcp, 20);
    SumFrom(tcp, 0);
    SumFrom(tcp, 4);
    SumFrom(tcp, 8);
    SumFrom(tcp, 12);
    SumFrom(tcp, 16);
  }

  lemma SplitVerifies(ps: Bytes, tcp: Bytes, rest: Bytes)
    requires IsSplitPseudo(ps) && IsSplitTcp(tcp) && rest == [2, 4, 5]
    ensures Accepted(Sum(ps) + Sum(tcp + rest))
  {
    SplitPseudoSum(ps);
    SplitTcpSum(tcp);
    SumAppend(tcp, rest);
    assert rest[2..] == [5];
  }

  lemma SplitIsExcessive(b: Bytes, ip: Bytes, tcp: Bytes, pad: Bytes)
    requires b == ip + tcp + pad && IsSplitIp(ip) && IsSplitTcp(tcp) && IsPadding(pad)
    ensures Excessive(b, 1400) == Some(20) && Mss(b, 20) == 1460 && GetU16(b[2..]) == 43
    ensures b[TCP..43] == tcp + [2, 4, 5]
  {
    assert |b| == 48 && b[0] == 0x45 && b[2] == 0 && b[3] == 43 && b[6] == 0 && b[7] == 0 && b[9] == 6;
    assert b[32] == 0x70 && b[33] == 2 && b[40] == 2 && b[41] == 4 && b[42] == 5 && b[43] == 180;
    assert IsSyn(b) && HeaderLen(b) == 28;
    assert LookAt(b, 28, 20) == Found;
    assert FindMss(b, 28, 20, 10) == Some(20);
  }

  lemma SplitClampBroken(b: Bytes, ip: Bytes, tcp: Bytes, pad: Bytes, ps: Bytes, was: nat, now: nat)
    requires b == ip + tcp + pad && IsSplitIp(ip) && IsSplitTcp(tcp) && IsPadding(pad) && IsSplitPseudo(ps)
    requires was == Sum(ps) + Sum(b[TCP..43]) && now == Sum(ps) + Sum(Clamped(b, 1400)[TCP..43])
    ensures GetU16(b[2..]) == 43 && Accepted(was) && !Accepted(now)
  {
    SplitIsExcessive(b, ip, tcp, pad);
    SplitVerifies(ps, tcp, [2, 4, 5]);
    ClampSplit(b, 1400, 43, was, now, Sum(ps), 20);
  }

  /** Such bytes. */
  lemma SplitSyn() returns (ip: Bytes, tcp: Bytes, pad: Bytes, ps: Bytes)
    ensures IsSplitIp(ip) && IsSplitTcp(tcp) && IsPadding(pad) && IsSplitPseudo(ps)
  {
    ip, tcp, pad, ps := SplitIp(), SplitTcp(), Padding(), SplitPseudo();
  }

  /** Its checksum is broken as well. */
  lemma SplitClampBreaks() returns (ip: Bytes, tcp: Bytes, pad: Bytes, ps: Bytes, b: Bytes)
    ensures IsSplitIp(ip) && IsSplitTcp(tcp) && IsPadding(pad) && IsSplitPseudo(ps) && b == ip + tcp + pad
    ensures GetU16(b[2..]) == 43 && Accepted(Sum(ps) + Sum(b[TCP..43]))
    ensures !Accepted(Sum(ps) + Sum(Clamped(b, 1400)[TCP..43]))
  {
    ip, tcp, pad, ps := SplitSyn();
    b := ip + tcp + pad;
    SplitClampBroken(b, ip, tcp, pad, ps, Sum(ps) + Sum(b[TCP..43]), Sum(ps) + Sum(Clamped(b, 1400)[TCP..43]));
  }

  // ---------------------------------------------------------------- the fragmenter

  /** A frame of 65530 bytes of IPv4. */
  function LongFrame(): Bytes {
    Zeros(14) + [0x45, 0, 0xff, 0xfa, 0, 0, 0, 0, 64, 17, 0, 0, 10, 0, 0, 2, 192, 0, 2, 1] + Zeros(65510)
  }

  const LONG_CONFIG := Fragmentation.Config(Zeros(16), Zeros(16), 1, 16384, 65535, 0)
  const LONG_KERNEL := Fragmentation.Kernel(16432, true, Some((Zeros(6), Zeros(6))), true, 7)

  /** It is admitted with a unit of 16384, and every one of its fragments is lost. */
  lemma LongPacketIsLost(gs: seq<Fragmentation.Config>)
    ensures Fragmentation.Parsed4(LongFrame(), 14)
    ensures var v := Fragmentation.Encapsulate(LONG_CONFIG, LONG_KERNEL, 0, LongFrame(), 14);
            v.Clones? && Fragmentation.Carried(v.frame, gs) == []
  {
    var frame := LongFrame();
    assert |frame| == 65544 && frame[14] == 0x45 && frame[16] == 0xff && frame[17] == 0xfa && frame[22] == 64;
    assert GetU16(frame[16..]) == 65530;
    LongIsAdmitted();
    var v := Fragmentation.Encapsulate(LONG_CONFIG, LONG_KERNEL, 0, frame, 14);
    Fragmentation.ClonesAreClones(LONG_CONFIG, LONG_KERNEL, 0, frame, 14, v.frame);
    Fragmentation.CarriedNothing(v.frame, Fragmentation.Packet(LONG_CONFIG, frame, 14), 16384, 7, gs);
  }

  lemma LongIsAdmitted()
    ensures Fragmentation.Parsed4(LongFrame(), 14) && LongFrame()[14 + TTL] == 64 && GetU16(LongFrame()[16..]) == 65530
    ensures Fragmentation.Encapsulate(LONG_CONFIG, LONG_KERNEL, 0, LongFrame(), 14).Clones?
  {
    var frame := LongFrame();
    assert |frame| == 65544 && frame[14] == 0x45 && frame[16] == 0xff && frame[17] == 0xfa && frame[22] == 64;
    assert frame[16..][0] == 0xff && frame[16..][1] == 0xfa;
    assert Fragmentation.RoundDown8(16384) == 16384;
  }

  // ---------------------------------------------------------------- the path MTU

  /** Startup on `a`, a hard switch to `b`, then a migration to `d`, which takes the slot that still holds
      `a`: a report about `a` between the two writes to that slot leaves its path MTU with `d`. */
  lemma ReadingOfAnother(l: PathMtu.Learned, a: Endpoints, b: Endpoints, d: Endpoints, mtu: nat, at: nat)
    returns (l1: PathMtu.Learned, l2: PathMtu.Learned, l3: PathMtu.Learned)
    requires PathMtu.Shaped(l) && l.maps == PathMtu.FRESH_MAPS && at > 0
    requires ValidEndpoints(a) && ValidEndpoints(b) && ValidEndpoints(d) && a != b && a != d
    ensures StartupPlan(l.maps, a).Some? && l1 == PathMtu.Run(l, PathMtu.Writes(StartupPlan(l.maps, a).value))
    ensures WellFormed(l1.maps) && SwitchPlan(l1.maps, b).Some?
    ensures l2 == PathMtu.Run(l1, PathMtu.Writes(SwitchPlan(l1.maps, b).value)) && WellFormed(l2.maps)
    ensures var plan := BeginPlan(l2.maps, d);
            && plan.Some? && |plan.value| == 3
            && plan.value[0] == ClearPmtu(0) && plan.value[1] == PutHop(0, NextHop(true, d))
            && l3 == PathMtu.Next(PathMtu.Run(PathMtu.Next(l2, PathMtu.Wrote(plan.value[0])),
                                              [PathMtu.TooBig(a, a.b4, mtu, at)]),
                                  PathMtu.Wrote(plan.value[1]))
    ensures l3.maps.hops[0] == NextHop(true, d) && PathMtu.PmtuFor(l3.maps.pmtus[0], at) == PathMtu.Floored(mtu)
    ensures l3.owner[0] == a && !PathMtu.Belongs(l3, 0)
  {
    StartupOutcome(l.maps, a);
    l1 := PathMtu.Run(l, PathMtu.Writes(StartupPlan(l.maps, a).value));
    PathMtu.RunMaps(l, StartupPlan(l.maps, a).value);
    SwitchOutcome(l1.maps, b);
    l2 := PathMtu.Run(l1, PathMtu.Writes(SwitchPlan(l1.maps, b).value));
    PathMtu.RunMaps(l1, SwitchPlan(l1.maps, b).value);
    PathMtu.FormerPairStays(l1.maps, b);
    var plan := BeginPlan(l2.maps, d);
    l3 := PathMtu.Next(PathMtu.Run(PathMtu.Next(l2, PathMtu.Wrote(plan.value[0])), [PathMtu.TooBig(a, a.b4, mtu, at)]),
                       PathMtu.Wrote(plan.value[1]));
    PathMtu.FormerPairsReading(l2, a, d, 0, mtu, at);
  }
}
