/** The IPv4 and UDP headers around a DHCPv4 reply, and their checksums. */
module DhcpFrame {
  import opened Addresses
  import opened ByteFields
  import opened Checksum
  import opened DhcpCodec
  import opened Powers

  const IP_HDR := 20
  const UDP_HDR := 8
  const SERVER_PORT: U16 := 67
  const CLIENT_PORT: U16 := 68
  const UDP: Byte := 17

  /** The most bytes whose words add up within 32 bits, whatever they are. */
  const MAX_SUMMED := 0x2_0000

  const WRAP := 0x1_0000_0000

  /** What a 32-bit sum keeps of `n`, and how often it wrapped. */
  function Wrapped(n: nat): U32 { n % WRAP }

  function Wraps(n: nat): nat { n / WRAP }

  /** checksum: the complement of the folded 32-bit sum in network byte order. */
  function NetCheck(b: Bytes): U16 {
    Fold(Wrapped(NetSum(b)))
  }

  /** Wrapping at every addition comes to wrapping once. */
  lemma WrapAdds(n: nat, w: nat)
    ensures Wrapped(Wrapped(n) + w) == Wrapped(n + w)
  {
    var m := Wrapped(n) + w;
    Quotient(n, WRAP, n / WRAP);
    Quotient(m, WRAP, m / WRAP);
    Quotient(n + w, WRAP, n / WRAP + m / WRAP);
  }

  lemma WrapSplit(n: nat)
    ensures n == Wrapped(n) + WRAP * Wraps(n)
    ensures n < WRAP ==> Wraps(n) == 0
  {
    Quotient(n, WRAP, n / WRAP);
    Quotient(n, WRAP, 0);
  }

  lemma FoldsToItself(csum: int)
    requires 0 <= csum
    ensures csum < 0x1_0000 ==> FoldOnce(csum) == csum
    ensures FoldOnce(csum) >= 0
  {
    Quotient(csum, 0x1_0000, csum / 0x1_0000);
    Quotient(csum, 0x1_0000, 0);
  }

  /** Folding until nothing is left to fold comes to folding twice. */
  lemma FoldedEnough(csum: U32)
    ensures csum < 0x1_0000 ==> FoldOnce(csum) == csum
    ensures FoldOnce(csum) < 0x1_0000 ==> FoldOnce(FoldOnce(csum)) == FoldOnce(csum)
    ensures FoldOnce(FoldOnce(csum)) < 0x1_0000
  {
    FoldsTwice(csum);
    FoldsToItself(csum);
    FoldsToItself(FoldOnce(csum));
  }

  /** The word at `i`, an odd last byte filled up with zero. */
  function NetWord(b: Bytes, i: nat): U16
    requires i < |b|
  {
    0x100 * (b[i] as int) + if i + 1 < |b| then b[i + 1] else 0
  }

  lemma NetSumStep(b: Bytes, i: nat)
    requires i < |b|
    ensures NetSum(b[i..]) == NetWord(b, i) + if i + 2 <= |b| then NetSum(b[i + 2..]) else 0
  {
    if i + 2 <= |b| {
      assert b[i..][2..] == b[i + 2..];
    }
  }

  /** The words added up in 32 bits. */
  method WordsAdded(b: Bytes) returns (sum: U32)
    ensures sum == Wrapped(NetSum(b))
  {
    sum := 0;
    var i := 0;
    ghost var total: nat, words: nat := 0, 0;
    assert b[0..] == b && Wrapped(0) == 0;
    while i + 1 < |b|
      invariant 0 <= i == 2 * words <= |b|
      invariant sum == Wrapped(total) && total + NetSum(b[i..]) == NetSum(b)
    {
      NetSumStep(b, i);
      sum, total := WrapAdded(sum, total, NetWord(b, i));
      i, words := i + 2, words + 1;
    }
    if |b| % 2 == 1 {
      NetSumStep(b, i);
      sum, total := WrapAdded(sum, total, NetWord(b, i));
    }
  }

  /** One addition in 32 bits, beside the exact one. */
  method WrapAdded(sum: U32, ghost total: nat, w: U16) returns (sum': U32, ghost total': nat)
    requires sum == Wrapped(total)
    ensures sum' == Wrapped(total') && total' == total + w
  {
    WrapAdds(total, w);
    sum', total' := (sum + w) % WRAP, total + w;
  }

  /** checksum */
  method NetChecksum(b: Bytes) returns (c: U16)
    ensures c == NetCheck(b)
  {
    var sum := WordsAdded(b);
    FoldedEnough(sum);
    ghost var whole: U32 := sum;
    while sum / 0x1_0000 != 0
      invariant sum == whole || sum == FoldOnce(whole) || sum == FoldOnce(FoldOnce(whole))
      invariant 0 <= sum
      decreases sum
    {
      sum := sum % 0x1_0000 + sum / 0x1_0000;
    }
    c := ONES - sum;
  }

  // ---------------------------------------------------------------- the frame

  function Low16(n: nat): U16 { n % 0x1_0000 }

  /** The header up to its checksum, and after it. */
  function IpFront(len: nat): (b: Bytes)
    ensures |b| == 10
  {
    [0x45, 0] + PutU16(Low16(len)) + [0, 0, 0, 0, 64, UDP]
  }

  function IpHeader(src: U32, dst: U32, len: nat): (b: Bytes)
    ensures |b| == IP_HDR
  {
    var ends := PutU32(src) + PutU32(dst);
    IpFront(len) + PutU16(NetCheck(IpFront(len) + [0, 0] + ends)) + ends
  }

  function UdpFront(len: nat): (b: Bytes)
    ensures |b| == 6
  {
    PutU16(SERVER_PORT) + PutU16(CLIENT_PORT) + PutU16(Low16(len))
  }

  function PseudoHeader(src: U32, dst: U32, len: nat): (b: Bytes)
    ensures |b| == 12
  {
    PutU32(src) + PutU32(dst) + [0, UDP] + PutU16(Low16(len))
  }

  /** udpChecksum, with zero sent as all ones (RFC 768). */
  function UdpCheck(src: U32, dst: U32, payload: Bytes): (c: U16)
    ensures c != 0
  {
    var len := UDP_HDR + |payload|;
    var c := NetCheck(PseudoHeader(src, dst, len) + (UdpFront(len) + [0, 0] + payload));
    if c == 0 then ONES else c
  }

  function Udp4(src: U32, dst: U32, payload: Bytes): Bytes {
    UdpFront(UDP_HDR + |payload|) + PutU16(UdpCheck(src, dst, payload)) + payload
  }

  /** buildFrame */
  function Framed(src: U32, dst: U32, payload: Bytes): Bytes {
    IpHeader(src, dst, IP_HDR + UDP_HDR + |payload|) + Udp4(src, dst, payload)
  }

  lemma WordSums(c: U16)
    ensures NetSum(PutU16(c)) == c && NetSum([0, 0]) == 0
  {
    var p, z := PutU16(c), [0, 0];
    assert p[2..] == [] && z[2..] == [];
  }

  lemma SumAround(a: Bytes, w: Bytes, b: Bytes)
    requires |a| % 2 == 0 && |w| == 2
    ensures NetSum(a + w + b) == NetSum(a) + NetSum(w) + NetSum(b)
  {
    SumAppend(a + w, b);
    SumAppend(a, w);
  }

  /** The folded complement completes what a 32-bit sum kept to a multiple of 65535. */
  lemma Completing(z: U32, c: U16) returns (k: nat)
    requires c == Fold(z) || (Fold(z) == 0 && c == ONES)
    ensures k > 0 && z + c == k * ONES
  {
    FoldsTwice(z);
    k := Carries(z) + if c == Fold(z) then 1 else 2;
  }

  /** Each wrap costs one: 65535 divides 4294967295. */
  lemma WrapsCost(sum: nat, k: nat, q: nat)
    requires k > 0 && sum == k * ONES + WRAP * q
    ensures Accepted(sum) <==> q % ONES == 0
  {
    Shift(sum, q, k + 0x1_0001 * q);
  }

  /** Filling a zero word, at an even place, with the checksum of the whole makes the whole verify, exactly
      when the 32-bit sum wrapped a multiple of 65535 times. */
  lemma FilledVerifies(a: Bytes, b: Bytes, c: U16)
    requires |a| % 2 == 0
    requires var z := NetCheck(a + [0, 0] + b); c == z || (z == 0 && c == ONES)
    ensures Accepted(NetSum(a + PutU16(c) + b)) <==> Wraps(NetSum(a + [0, 0] + b)) % ONES == 0
  {
    var n := NetSum(a + [0, 0] + b);
    var now := NetSum(a + PutU16(c) + b);
    assert now == n + c by {
      SumAround(a, PutU16(c), b);
      SumAround(a, [0, 0], b);
      WordSums(c);
    }
    var k := Completing(Wrapped(n), c);
    WrapSplit(n);
    WrapsCost(now, k, Wraps(n));
  }

  /** Nothing wraps in a buffer short enough. */
  lemma NoWrap(b: Bytes)
    requires |b| <= MAX_SUMMED
    ensures Wraps(NetSum(b)) % ONES == 0
  {
    WrapSplit(NetSum(b));
    SmallMod(0);
  }

  lemma Regroup(a: Bytes, b: Bytes, c: Bytes, d: Bytes)
    ensures a + (b + c + d) == (a + b) + c + d
  {
  }

  /** What the UDP checksum covers, before it is filled in. */
  function Covered(src: U32, dst: U32, payload: Bytes): Bytes {
    var len := UDP_HDR + |payload|;
    PseudoHeader(src, dst, len) + (UdpFront(len) + [0, 0] + payload)
  }

  lemma HeaderVerifies(src: U32, dst: U32, len: nat)
    ensures Accepted(NetSum(IpHeader(src, dst, len)))
  {
    var ends := PutU32(src) + PutU32(dst);
    NoWrap(IpFront(len) + [0, 0] + ends);
    FilledVerifies(IpFront(len), ends, NetCheck(IpFront(len) + [0, 0] + ends));
  }

  lemma UdpVerifies(src: U32, dst: U32, payload: Bytes)
    ensures Accepted(NetSum(PseudoHeader(src, dst, UDP_HDR + |payload|) + Udp4(src, dst, payload)))
            <==> Wraps(NetSum(Covered(src, dst, payload))) % ONES == 0
  {
    var len := UDP_HDR + |payload|;
    var ps, front, c := PseudoHeader(src, dst, len), UdpFront(len), UdpCheck(src, dst, payload);
    Regroup(ps, front, PutU16(c), payload);
    Regroup(ps, front, [0, 0], payload);
    FilledVerifies(ps + front, payload, c);
  }

  /** The IPv4 header of every frame verifies by itself. UDP with its pseudo-header verifies exactly when
      the 32-bit sum wrapped a multiple of 65535 times, as it does, not at all, for any payload an IPv4
      packet can carry. Its checksum is never the zero that means none, and the payload is intact. */
  lemma FrameVerifies(src: U32, dst: U32, payload: Bytes)
    ensures var f := Framed(src, dst, payload); var udp := PseudoHeader(src, dst, UDP_HDR + |payload|) + f[IP_HDR..];
            && Accepted(NetSum(f[..IP_HDR]))
            && (Accepted(NetSum(udp)) <==> Wraps(NetSum(Covered(src, dst, payload))) % ONES == 0)
            && (|payload| <= MAX_SUMMED - 20 ==> Accepted(NetSum(udp)))
            && GetU16(f[IP_HDR + 6..]) != 0
            && f[IP_HDR + UDP_HDR..] == payload
  {
    var len := UDP_HDR + |payload|;
    var f, c := Framed(src, dst, payload), UdpCheck(src, dst, payload);
    assert f[..IP_HDR] == IpHeader(src, dst, IP_HDR + len) && f[IP_HDR..] == Udp4(src, dst, payload);
    HeaderVerifies(src, dst, IP_HDR + len);
    UdpVerifies(src, dst, payload);
    if |payload| <= MAX_SUMMED - 20 {
      NoWrap(Covered(src, dst, payload));
    }
    assert f[IP_HDR + 6..] == PutU16(c) + payload;
    U16RoundTrip(c, payload);
    assert f[IP_HDR + UDP_HDR..] == payload;
  }

  function AllOnes(n: nat): (b: Bytes)
    ensures |b| == n && forall i :: 0 <= i < n ==> b[i] == 0xff
  {
    seq(n, _ => 0xff)
  }

  lemma {:induction false} SumOfOnes(b: Bytes)
    requires |b| % 2 == 0 && forall i :: 0 <= i < |b| ==> b[i] == 0xff
    ensures NetSum(b) == ONES * (|b| / 2)
  {
    if b != [] {
      SumOfOnes(b[2..]);
    }
  }

  lemma OverlongWraps(src: U32, dst: U32, p: Bytes)
    requires p == AllOnes(MAX_SUMMED + 4)
    ensures Wraps(NetSum(Covered(src, dst, p))) == 1
  {
    var len := UDP_HDR + |p|;
    var front := PseudoHeader(src, dst, len) + UdpFront(len);
    Regroup(PseudoHeader(src, dst, len), UdpFront(len), [0, 0], p);
    SumAround(front, [0, 0], p);
    WordSums(0);
    SumOfOnes(p);
    Quotient(NetSum(front) + NetSum(p), WRAP, 1);
  }

  /** 131076 bytes of ones make the sum wrap once, and the checksum then does not verify. */
  lemma OverlongFails(src: U32, dst: U32, p: Bytes)
    requires p == AllOnes(MAX_SUMMED + 4)
    ensures !Accepted(NetSum(PseudoHeader(src, dst, UDP_HDR + |p|) + Udp4(src, dst, p)))
  {
    OverlongWraps(src, dst, p);
    SmallMod(1);
    UdpVerifies(src, dst, p);
  }

  // ---------------------------------------------------------------- in place

  method PutIpFields(b: array<Byte>, src: U32, dst: U32)
    requires IP_HDR <= b.Length && forall i :: 0 <= i < b.Length ==> b[i] == 0
    modifies b
    ensures b[..IP_HDR] == IpFront(b.Length) + [0, 0] + (PutU32(src) + PutU32(dst))
    ensures forall i :: IP_HDR <= i < b.Length ==> b[i] == 0
  {
    b[0] := 0x45;
    assert b[..2] == [0x45, 0];
    Put(b, 2, PutU16(Low16(b.Length)));
    assert b[..10] == b[..4] + [0, 0, 0, 0, 0, 0];
    b[8], b[9] := 64, UDP;
    assert b[..12] == IpFront(b.Length) + [0, 0];
    Put(b, 12, PutU32(src));
    Put(b, 16, PutU32(dst));
    assert b[..IP_HDR] == IpFront(b.Length) + [0, 0] + (PutU32(src) + PutU32(dst));
  }

  method PutIpHeader(b: array<Byte>, src: U32, dst: U32)
    requires IP_HDR + UDP_HDR <= b.Length && forall i :: 0 <= i < b.Length ==> b[i] == 0
    modifies b
    ensures b[..IP_HDR] == IpHeader(src, dst, b.Length)
    ensures forall i :: IP_HDR <= i < b.Length ==> b[i] == 0
  {
    PutIpFields(b, src, dst);
    ghost var front, ends := IpFront(b.Length), PutU32(src) + PutU32(dst);
    var c := NetChecksum(b[..IP_HDR]);
    assert b[..10] == b[..IP_HDR][..10] && b[12..IP_HDR] == b[..IP_HDR][12..];
    assert b[..10] == front && b[12..IP_HDR] == ends;
    Put(b, 10, PutU16(c));
    assert b[12..IP_HDR] == ends;
    assert b[..IP_HDR] == b[..12] + b[12..IP_HDR];
  }

  /** udpChecksum */
  method UdpChecksum(src: U32, dst: U32, udp: Bytes) returns (c: U16)
    ensures c == NetCheck(PseudoHeader(src, dst, |udp|) + udp)
  {
    var pseudo := new Byte[12 + |udp|](_ => 0);
    Put(pseudo, 0, PutU32(src));
    Put(pseudo, 4, PutU32(dst));
    ghost var ends := pseudo[..8];
    pseudo[9] := UDP;
    assert pseudo[..8] == ends;
    assert pseudo[..10] == pseudo[..8] + [pseudo[8], pseudo[9]];
    assert pseudo[..10] == PutU32(src) + PutU32(dst) + [0, UDP];
    Put(pseudo, 10, PutU16(Low16(|udp|)));
    Put(pseudo, 12, udp);
    assert pseudo[..] == pseudo[..12 + |udp|];
    c := NetChecksum(pseudo[..]);
  }

  method PutUdp(b: array<Byte>, src: U32, dst: U32, payload: Bytes)
    requires b.Length == IP_HDR + UDP_HDR + |payload|
    requires forall i :: IP_HDR <= i < b.Length ==> b[i] == 0
    modifies b
    ensures b[..] == old(b[..IP_HDR]) + Udp4(src, dst, payload)
  {
    ghost var ip := b[..IP_HDR];
    var udpLen := UDP_HDR + |payload|;
    Put(b, IP_HDR, PutU16(SERVER_PORT));
    Put(b, IP_HDR + 2, PutU16(CLIENT_PORT));
    Put(b, IP_HDR + 4, PutU16(Low16(udpLen)));
    assert b[..IP_HDR + 6] == ip + UdpFront(udpLen);
    assert b[..IP_HDR + 8] == ip + UdpFront(udpLen) + [0, 0];
    Put(b, IP_HDR + 8, payload);
    assert b[..] == b[..IP_HDR + 8 + |payload|];
    assert b[..] == ip + UdpFront(udpLen) + [0, 0] + payload;
    assert b[IP_HDR..] == UdpFront(udpLen) + [0, 0] + payload;
    var csum := UdpChecksum(src, dst, b[IP_HDR..]);
    if csum == 0 {
      csum := ONES;
    }
    assert b[IP_HDR + 8..] == payload && b[..IP_HDR + 6] == ip + UdpFront(udpLen);
    Put(b, IP_HDR + 6, PutU16(csum));
    assert b[..] == b[..IP_HDR + 8] + b[IP_HDR + 8..];
    assert b[IP_HDR + 8..] == payload;
    assert csum == UdpCheck(src, dst, payload);
  }

  /** buildFrame */
  method BuildFrame(src: U32, dst: U32, payload: Bytes) returns (frame: Bytes)
    ensures frame == Framed(src, dst, payload)
  {
    var b := new Byte[IP_HDR + UDP_HDR + |payload|](_ => 0);
    PutIpHeader(b, src, dst);
    PutUdp(b, src, dst, payload);
    frame := b[..];
  }
}
