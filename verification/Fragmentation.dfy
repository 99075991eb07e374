/** Softwire encapsulation of one LAN packet, and its fragmentation as outer IPv6 fragments cut from
    clones of one frame (section 5.3 of RFC 6333, section 4.5 of RFC 8200). */
module Fragmentation {
  import opened Wrappers
  import opened Addresses
  import opened ByteFields
  import opened Powers
  import opened Checksum
  import opened MssClamp

  const ETH := 14
  const OUTER := 54        // Ethernet and outer IPv6
  const FRAG_HDR := 8
  const HEADERS := 62      // and the Fragment header
  const TUNNEL_OVERHEAD := 40
  const MAX_FRAGS := 4
  const NEXT_IPIP: Byte := 4
  const NEXT_FRAGMENT: Byte := 44

  type Mac = b: Bytes | |b| == 6 witness [0, 0, 0, 0, 0, 0]
  type Ip6 = b: Bytes | |b| == 16 witness Zeros(16)

  /** What the datapath reads of its configuration: the pair of the packet's slot, and b4_config. */
  datatype Config = Config(b4: Ip6, aftr: Ip6, wan: nat, fragUnit: U32, fragMaxInner: U32, clamp: U16)

  /** What the kernel answers for one packet: the MTU of the WAN device, whether the companion ports are
      up, the next hop, room in front of the frame; and the random identification. */
  datatype Kernel = Kernel(wanMtu: U32, ports: bool, hop: Option<(Mac, Mac)>, headroom: bool, id: U32)

  datatype Verdict = Pass | Abort | Whole(frame: Bytes) | Clones(frame: Bytes)

  // ---------------------------------------------------------------- headers

  function Ethernet(hop: (Mac, Mac)): (b: Bytes)
    ensures |b| == ETH
  {
    hop.0 + hop.1 + [0x86, 0xdd]
  }

  /** An IPv6 header; `flow` are the two low bytes of the flow label. */
  function Ip6Header(flow: U16, len: U16, next: Byte, src: Ip6, dst: Ip6): (b: Bytes)
    ensures |b| == 40
  {
    [0x60, 0] + PutU16(flow) + PutU16(len) + [next, 64] + src + dst
  }

  function FragHeader(next: Byte, offset: U16, id: U32): (b: Bytes)
    ensures |b| == FRAG_HDR
  {
    [next, 0] + PutU16(offset) + PutU32(id)
  }

  // ---------------------------------------------------------------- encapsulation

  /** A frame as parsed: an IPv4 packet without options behind `l2` bytes, all there. */
  predicate Parsed4(frame: Bytes, l2: nat) {
    && l2 in {14, 18, 22} && l2 + IPV4_LEN <= |frame|
    && frame[l2] == 0x45
    && IPV4_LEN <= GetU16(frame[l2 + 2..]) && l2 + GetU16(frame[l2 + 2..]) <= |frame|
  }

  function EffectiveMtu(wanMtu: U32, learned: U32): U32 {
    if learned != 0 && learned < wanMtu then learned else wanMtu
  }

  function RoundDown8(n: nat): (r: nat)
    ensures r <= n < r + 8 && r % 8 == 0
  {
    n - n % 8
  }

  /** The guards of encap_fragment_outer: what the clones can carry. */
  predicate Fits(cfg: Config, k: Kernel, innerLen: U16, mtu: U32) {
    var unit := RoundDown8(cfg.fragUnit);
    && unit != 0 && innerLen <= MAX_FRAGS * unit && innerLen <= cfg.fragMaxInner
    && unit + TUNNEL_OVERHEAD + FRAG_HDR <= mtu && k.ports
  }

  /** The frame that is cloned. The unit travels in the flow label. */
  function Transport(cfg: Config, hop: (Mac, Mac), id: U32, rest: Bytes, innerLen: U16): Bytes
    requires |rest| >= IPV4_LEN && rest[TTL] >= 1
  {
    var unit := RoundDown8(cfg.fragUnit) % 0x1_0000;
    Ethernet(hop) + Ip6Header(unit, (innerLen + FRAG_HDR) % 0x1_0000, NEXT_FRAGMENT, cfg.b4, cfg.aftr)
    + FragHeader(NEXT_IPIP, 1, id) + DecreaseTtl(rest)
  }

  function WholeFrame(cfg: Config, hop: (Mac, Mac), rest: Bytes, innerLen: U16): Bytes
    requires |rest| >= IPV4_LEN && rest[TTL] >= 1
  {
    Ethernet(hop) + Ip6Header(0, innerLen, NEXT_IPIP, cfg.b4, cfg.aftr) + DecreaseTtl(rest)
  }

  /** The packet and what is behind it in the frame, its MSS clamped. */
  function Inner(cfg: Config, frame: Bytes, l2: nat): (r: Bytes)
    requires Parsed4(frame, l2)
    ensures |r| == |frame| - l2 && r[TTL] == frame[l2 + TTL] && GetU16(r[2..]) == GetU16(frame[l2 + 2..])
  {
    var rest := frame[l2..];
    ClampLowers(rest, cfg.clamp);
    if cfg.clamp != 0 then Clamped(rest, cfg.clamp) else rest
  }

  /** do_xdp_dslite_encap from its MTU check on, and encap_fragment_outer. `learned` is the path MTU in
      force for the slot, or zero. */
  function Encapsulate(cfg: Config, k: Kernel, learned: U32, frame: Bytes, l2: nat): Verdict
    requires Parsed4(frame, l2)
  {
    var rest := Inner(cfg, frame, l2);
    var innerLen := GetU16(rest[2..]);
    var mtu := EffectiveMtu(k.wanMtu, learned);
    if rest[TTL] <= 1 then Pass
    else if TUNNEL_OVERHEAD + innerLen > mtu then
      if !Fits(cfg, k, innerLen, mtu) || k.hop.None? then Pass
      else if !k.headroom then Abort
      else Clones(Transport(cfg, k.hop.value, k.id, rest, innerLen))
    else if k.hop.None? then Pass
    else if !k.headroom then Abort
    else Whole(WholeFrame(cfg, k.hop.value, rest, innerLen))
  }

  // ---------------------------------------------------------------- fragments

  /** emit_softwire_fragment on clone `idx`, `g` being the configuration it finds: the fragment, or
      None where the clone is dropped. */
  function Emit(idx: nat, c: Bytes, g: Config): Option<Bytes> {
    if |c| < HEADERS || c[12] != 0x86 || c[13] != 0xdd || c[ETH] / 16 != 6 then None
    else
      var plen := GetU16(c[18..]);
      if OUTER + plen > |c| || c[20] != NEXT_FRAGMENT || plen < FRAG_HDR + IPV4_LEN || g.wan == 0 then None
      else
        var total := plen - FRAG_HDR;
        var unit := RoundDown8(GetU16(c[16..]));
        var start := idx * unit;
        if unit < 8 || start >= total then None
        else
          Aligned(idx, unit);
          var len := if total - start > unit then unit else total - start;
          Some(Cut(c, start, len, total))
  }

  lemma Aligned(idx: nat, unit: nat)
    requires unit % 8 == 0
    ensures idx * unit % 8 == 0 && idx * unit >= 0
  {
    Quotient(unit, 8, unit / 8);
    assert idx * unit == (idx * (unit / 8)) * 8;
    Quotient(idx * unit, 8, idx * (unit / 8));
  }

  /** The clone with its headers moved up to the slice, and the tail cut off. */
  function Cut(c: Bytes, start: nat, len: nat, total: nat): Bytes
    requires start % 8 == 0 && start + len <= total && HEADERS + total <= |c| && total < 0x1_0000 - FRAG_HDR
  {
    var last := start + len == total;
    c[..ETH] + [c[ETH], 0, 0, 0] + PutU16(len + FRAG_HDR) + c[20..56]
    + PutU16(if last then start else start + 1) + c[58..HEADERS]
    + c[HEADERS + start..|c| - (total - start - len)]
  }

  // What a receiver reads of a fragment.

  function PayloadLen(f: Bytes): U16
    requires |f| >= HEADERS
  {
    GetU16(f[18..])
  }

  function FragOffset(f: Bytes): nat
    requires |f| >= HEADERS
  {
    GetU16(f[56..]) / 8 * 8
  }

  predicate MoreFragments(f: Bytes)
    requires |f| >= HEADERS
  {
    GetU16(f[56..]) % 2 == 1
  }

  function Identification(f: Bytes): U32
    requires |f| >= HEADERS
  {
    GetU32(f[58..])
  }

  function Payload(f: Bytes): Bytes
    requires |f| >= HEADERS && FRAG_HDR <= PayloadLen(f) && OUTER + PayloadLen(f) <= |f|
  {
    f[HEADERS..OUTER + PayloadLen(f)]
  }

  /** `f` is the fragment of `inner` at `idx * unit`. */
  ghost predicate IsFragment(f: Bytes, inner: Bytes, idx: nat, unit: nat, id: U32) {
    var start := idx * unit;
    var end := if start + unit < |inner| then start + unit else |inner|;
    && start < |inner| && |f| >= HEADERS
    && FRAG_HDR <= PayloadLen(f) && OUTER + PayloadLen(f) <= |f|
    && FragOffset(f) == start
    && (MoreFragments(f) <==> end < |inner|)
    && Identification(f) == id
    && f[16] == 0 && f[17] == 0
    && Payload(f) == inner[start..end]
  }

  // ---------------------------------------------------------------- one fragment

  lemma TransportFields(cfg: Config, hop: (Mac, Mac), id: U32, rest: Bytes, innerLen: U16)
    requires |rest| >= IPV4_LEN && rest[TTL] >= 1 && RoundDown8(cfg.fragUnit) < 0x1_0000
    ensures var c := Transport(cfg, hop, id, rest, innerLen);
            && |c| == HEADERS + |rest|
            && c[12] == 0x86 && c[13] == 0xdd && c[ETH] == 0x60 && c[20] == NEXT_FRAGMENT
            && GetU16(c[16..]) == RoundDown8(cfg.fragUnit) && GetU16(c[18..]) == (innerLen + FRAG_HDR) % 0x1_0000
            && GetU32(c[58..]) == id
            && c[HEADERS..] == DecreaseTtl(rest)
  {
    var unit := RoundDown8(cfg.fragUnit);
    var len := (innerLen + FRAG_HDR) % 0x1_0000;
    var eth, ip := Ethernet(hop), Ip6Header(unit, len, NEXT_FRAGMENT, cfg.b4, cfg.aftr);
    var fh, inner := FragHeader(NEXT_IPIP, 1, id), DecreaseTtl(rest);
    var c := Transport(cfg, hop, id, rest, innerLen);
    assert c == eth + ip + fh + inner;
    HeaderFields(unit, len, NEXT_FRAGMENT, cfg.b4, cfg.aftr);
    assert c[16..18] == ip[2..4] && c[18..20] == ip[4..6];
    assert c[ETH] == ip[0] && c[20] == ip[6];
    U32RoundTrip(id, []);
    var w := PutU32(id);
    assert w + [] == w;
    assert c[58..62] == fh[4..8] == w;
    assert c[58] == w[0] && c[59] == w[1] && c[60] == w[2] && c[61] == w[3];
  }

  lemma HeaderFields(flow: U16, len: U16, next: Byte, src: Ip6, dst: Ip6)
    ensures var h := Ip6Header(flow, len, next, src, dst);
            && h[0] == 0x60 && h[2..4] == PutU16(flow) && h[4..6] == PutU16(len) && h[6] == next
  {
  }

  lemma SubSlice(b: Bytes, lo: nat, hi: nat, x: nat, y: nat)
    requires lo <= hi <= |b| && x <= y <= hi - lo
    ensures b[lo..hi][x..y] == b[lo + x..lo + y]
  {
    var l, r := b[lo..hi][x..y], b[lo + x..lo + y];
    forall i | 0 <= i < y - x
      ensures l[i] == r[i]
    {
      assert l[i] == b[lo..hi][x + i];
    }
  }

  lemma CutFields(c: Bytes, start: nat, len: nat, total: nat)
    requires start % 8 == 0 && start + len <= total && HEADERS + total <= |c| && total < 0x1_0000 - FRAG_HDR
    ensures var f := Cut(c, start, len, total);
            && |f| == |c| - total + len
            && f[16] == 0 && f[17] == 0
            && GetU16(f[18..]) == len + FRAG_HDR
            && GetU16(f[56..]) == (if start + len == total then start else start + 1)
            && GetU32(f[58..]) == GetU32(c[58..])
            && f[HEADERS..HEADERS + len] == c[HEADERS + start..HEADERS + start + len]
  {
    var f := Cut(c, start, len, total);
    var off: U16 := if start + len == total then start else start + 1;
    assert f[HEADERS..] == c[HEADERS + start..|c| - (total - start - len)];
    assert f[HEADERS..HEADERS + len] == f[HEADERS..][..len];
    assert f[18..20] == PutU16(len + FRAG_HDR);
    assert f[56..58] == PutU16(off);
    assert f[58..62] == c[58..62];
    assert f[58] == c[58] && f[59] == c[59] && f[60] == c[60] && f[61] == c[61];
  }

  /** A frame cloned for `inner`, with the unit written into it. */
  ghost predicate IsClone(c: Bytes, inner: Bytes, unit: nat, id: U32) {
    && HEADERS + |inner| <= |c| && |inner| >= IPV4_LEN
    && c[12] == 0x86 && c[13] == 0xdd && c[ETH] == 0x60 && c[20] == NEXT_FRAGMENT
    && GetU16(c[16..]) == unit && GetU16(c[18..]) == (|inner| + FRAG_HDR) % 0x1_0000
    && GetU32(c[58..]) == id
    && c[HEADERS..HEADERS + |inner|] == inner
  }

  lemma RoundedAlready(unit: nat)
    requires unit % 8 == 0
    ensures RoundDown8(unit) == unit
  {
  }

  function SliceLen(total: nat, start: nat, unit: nat): nat
    requires start <= total
  {
    if total - start > unit then unit else total - start
  }

  /** What emit_softwire_fragment does to a clone. */
  lemma EmitIs(c: Bytes, inner: Bytes, unit: nat, id: U32, idx: nat, g: Config)
    requires IsClone(c, inner, unit, id) && unit % 8 == 0 && unit >= 8 && |inner| < 0x1_0000 - FRAG_HDR && g.wan != 0
    ensures idx * unit % 8 == 0
    ensures Emit(idx, c, g)
            == if idx * unit < |inner| then Some(Cut(c, idx * unit, SliceLen(|inner|, idx * unit, unit), |inner|)) else None
  {
    Aligned(idx, unit);
    RoundedAlready(unit);
  }

  /** Clone `idx` becomes the fragment at `idx * unit`, or is dropped past the end of the packet. */
  lemma EmitCuts(c: Bytes, inner: Bytes, unit: nat, id: U32, idx: nat, g: Config)
    requires IsClone(c, inner, unit, id) && unit % 8 == 0 && unit >= 8 && |inner| < 0x1_0000 - FRAG_HDR && g.wan != 0
    ensures var r := Emit(idx, c, g);
            if idx * unit < |inner| then
              r.Some? && IsFragment(r.value, inner, idx, unit, id) && PayloadLen(r.value) <= unit + FRAG_HDR
            else r == None
  {
    var start := idx * unit;
    EmitIs(c, inner, unit, id, idx, g);
    if start < |inner| {
      var len := SliceLen(|inner|, start, unit);
      CutFields(c, start, len, |inner|);
      CutIsFragment(c, inner, unit, id, idx, start, len);
    }
  }

  lemma OffsetWord(w: nat, start: nat)
    requires start % 8 == 0 && (w == start || w == start + 1)
    ensures w / 8 * 8 == start && (w % 2 == 1 <==> w != start)
  {
    var k := start / 8;
    Quotient(start, 8, k);
    Quotient(w, 8, k);
    Quotient(w, 2, 4 * k);
  }

  lemma CutIsFragment(c: Bytes, inner: Bytes, unit: nat, id: U32, idx: nat, start: nat, len: nat)
    requires IsClone(c, inner, unit, id) && |inner| < 0x1_0000 - FRAG_HDR
    requires start == idx * unit && start % 8 == 0 && start < |inner|
    requires len == SliceLen(|inner|, start, unit)
    ensures IsFragment(Cut(c, start, len, |inner|), inner, idx, unit, id)
  {
    var f := Cut(c, start, len, |inner|);
    CutFields(c, start, len, |inner|);
    OffsetWord(GetU16(f[56..]), start);
    SubSlice(c, HEADERS, HEADERS + |inner|, start, start + len);
  }

  /** A packet whose length with the Fragment header does not fit its field: every clone is dropped. */
  lemma EmitWraps(c: Bytes, inner: Bytes, unit: nat, id: U32, idx: nat, g: Config)
    requires IsClone(c, inner, unit, id) && 0x1_0000 - FRAG_HDR <= |inner| < 0x1_0000
    ensures Emit(idx, c, g) == None
  {
  }

  // ---------------------------------------------------------------- all of them

  /** What a receiver takes out of a fragment. */
  function Piece(r: Option<Bytes>): Bytes {
    if r.Some? && |r.value| >= HEADERS && FRAG_HDR <= PayloadLen(r.value) && OUTER + PayloadLen(r.value) <= |r.value|
    then Payload(r.value) else []
  }

  /** The payloads of the fragments cut from the clones; clone `i` finds the configuration `gs[i]`. */
  function Pieces(c: Bytes, gs: seq<Config>): seq<Bytes> {
    seq(|gs|, i requires 0 <= i < |gs| => Piece(Emit(i, c, gs[i])))
  }

  function Joined(ps: seq<Bytes>): Bytes {
    if ps == [] then [] else Joined(ps[..|ps| - 1]) + ps[|ps| - 1]
  }

  /** The payloads put together in order. */
  function Carried(c: Bytes, gs: seq<Config>): Bytes {
    Joined(Pieces(c, gs))
  }

  function Prefix(inner: Bytes, n: int): Bytes {
    if n < 0 then [] else if n > |inner| then inner else inner[..n]
  }

  /** The part of `inner` that is due at `m * unit`. */
  function Part(inner: Bytes, m: nat, unit: nat): Bytes {
    var start := m * unit;
    if start >= |inner| then [] else if start + unit < |inner| then inner[start..start + unit] else inner[start..]
  }

  lemma PrefixStep(inner: Bytes, m: nat, unit: nat)
    ensures Prefix(inner, (m + 1) * unit) == Prefix(inner, m * unit) + Part(inner, m, unit)
  {
    assert (m + 1) * unit == m * unit + unit;
  }

  lemma {:induction false} JoinedIsPrefix(ps: seq<Bytes>, inner: Bytes, unit: nat)
    requires forall m :: 0 <= m < |ps| ==> ps[m] == Part(inner, m, unit)
    ensures Joined(ps) == Prefix(inner, |ps| * unit)
  {
    if ps != [] {
      var m := |ps| - 1;
      JoinedIsPrefix(ps[..m], inner, unit);
      PrefixStep(inner, m, unit);
    }
  }

  lemma {:induction false} JoinedNothing(ps: seq<Bytes>)
    requires forall m :: 0 <= m < |ps| ==> ps[m] == []
    ensures Joined(ps) == []
  {
    if ps != [] {
      JoinedNothing(ps[..|ps| - 1]);
    }
  }

  /** What clone `m` adds. */
  lemma PieceIs(c: Bytes, inner: Bytes, unit: nat, id: U32, m: nat, g: Config)
    requires IsClone(c, inner, unit, id) && unit % 8 == 0 && unit >= 8 && |inner| < 0x1_0000 - FRAG_HDR && g.wan != 0
    ensures Piece(Emit(m, c, g)) == Part(inner, m, unit)
  {
    EmitCuts(c, inner, unit, id, m, g);
  }

  /** The fragments put together are the packet, whatever the configuration becomes between clones,
      exactly when its length with the Fragment header fits 16 bits. */
  lemma Reassembles(c: Bytes, inner: Bytes, unit: nat, id: U32, gs: seq<Config>)
    requires IsClone(c, inner, unit, id) && unit % 8 == 0 && unit >= 8 && |inner| < 0x1_0000
    requires |inner| <= MAX_FRAGS * unit
    requires |gs| == MAX_FRAGS && forall i :: 0 <= i < |gs| ==> gs[i].wan != 0
    ensures Carried(c, gs) == inner <==> |inner| < 0x1_0000 - FRAG_HDR
  {
    if |inner| < 0x1_0000 - FRAG_HDR {
      var ps := Pieces(c, gs);
      forall m | 0 <= m < |ps|
        ensures ps[m] == Part(inner, m, unit)
      {
        PieceIs(c, inner, unit, id, m, gs[m]);
      }
      JoinedIsPrefix(ps, inner, unit);
    } else {
      CarriedNothing(c, inner, unit, id, gs);
    }
  }

  lemma CarriedNothing(c: Bytes, inner: Bytes, unit: nat, id: U32, gs: seq<Config>)
    requires IsClone(c, inner, unit, id) && 0x1_0000 - FRAG_HDR <= |inner| < 0x1_0000
    ensures Carried(c, gs) == []
  {
    var ps := Pieces(c, gs);
    forall m | 0 <= m < |ps|
      ensures ps[m] == []
    {
      EmitWraps(c, inner, unit, id, m, gs[m]);
    }
    JoinedNothing(ps);
  }

  // ---------------------------------------------------------------- the whole path

  /** The packet that is sent: as it came, its MSS clamped and its TTL less by one. */
  function Packet(cfg: Config, frame: Bytes, l2: nat): Bytes
    requires Parsed4(frame, l2) && frame[l2 + TTL] >= 1
  {
    DecreaseTtl(Inner(cfg, frame, l2))[..GetU16(frame[l2 + 2..])]
  }

  lemma TailPrefix(b: Bytes, lo: nat, n: nat)
    requires lo + n <= |b|
    ensures b[lo..][..n] == b[lo..lo + n]
  {
  }

  lemma PrefixOfPrefix(b: Bytes, n: nat, k: nat)
    requires k <= n <= |b|
    ensures b[..n][..k] == b[..k]
  {
  }

  /** The clamp leaves the IPv4 header as it came. */
  lemma InnerHeader(cfg: Config, frame: Bytes, l2: nat)
    requires Parsed4(frame, l2)
    ensures |frame| >= l2 + IPV4_LEN && Inner(cfg, frame, l2)[..IPV4_LEN] == frame[l2..l2 + IPV4_LEN]
  {
    ClampKeepsHeader(frame[l2..], cfg.clamp);
    TailPrefix(frame, l2, IPV4_LEN);
  }

  /** Its header verifies exactly when it did on arrival. */
  lemma PacketVerifies(cfg: Config, frame: Bytes, l2: nat)
    requires Parsed4(frame, l2) && frame[l2 + TTL] >= 1
    ensures Accepted(Sum(Packet(cfg, frame, l2)[..IPV4_LEN])) <==> Accepted(Sum(frame[l2..l2 + IPV4_LEN]))
  {
    var rest := Inner(cfg, frame, l2);
    InnerHeader(cfg, frame, l2);
    TtlKeepsChecksum(rest);
    PrefixOfPrefix(DecreaseTtl(rest), GetU16(frame[l2 + 2..]), IPV4_LEN);
  }

  /** What is cloned was admitted, and its unit fits the field that carries it. */
  lemma ClonesAreClones(cfg: Config, k: Kernel, learned: U32, frame: Bytes, l2: nat, c: Bytes)
    requires Parsed4(frame, l2) && Encapsulate(cfg, k, learned, frame, l2) == Clones(c)
    ensures var unit := RoundDown8(cfg.fragUnit); var inner := Packet(cfg, frame, l2);
            && IsClone(c, inner, unit, k.id) && unit >= 8 && |inner| <= MAX_FRAGS * unit && |inner| < 0x1_0000
            && unit + TUNNEL_OVERHEAD + FRAG_HDR <= EffectiveMtu(k.wanMtu, learned)
  {
    var rest := Inner(cfg, frame, l2);
    var innerLen := GetU16(rest[2..]);
    assert RoundDown8(cfg.fragUnit) < 0x1_0000;
    TransportFields(cfg, k.hop.value, k.id, rest, innerLen);
    assert c[HEADERS..HEADERS + innerLen] == c[HEADERS..][..innerLen];
  }

  /** For every packet that is admitted: clone `idx` becomes its fragment at `idx * unit`, of at most the
      effective MTU, or is dropped past its end. */
  lemma FragmentsAreRight(cfg: Config, k: Kernel, learned: U32, frame: Bytes, l2: nat, c: Bytes, idx: nat, g: Config)
    requires Parsed4(frame, l2) && Encapsulate(cfg, k, learned, frame, l2) == Clones(c) && g.wan != 0
    requires GetU16(frame[l2 + 2..]) < 0x1_0000 - FRAG_HDR
    ensures var unit := RoundDown8(cfg.fragUnit); var inner := Packet(cfg, frame, l2); var r := Emit(idx, c, g);
            if idx * unit < |inner| then
              && r.Some? && IsFragment(r.value, inner, idx, unit, k.id)
              && TUNNEL_OVERHEAD + PayloadLen(r.value) <= EffectiveMtu(k.wanMtu, learned)
            else r == None
  {
    ClonesAreClones(cfg, k, learned, frame, l2, c);
    EmitCuts(c, Packet(cfg, frame, l2), RoundDown8(cfg.fragUnit), k.id, idx, g);
  }

  /** For every packet that is admitted, put together again they are the packet exactly when its length
      with the Fragment header fits 16 bits. */
  lemma FragmentationRoundTrip(cfg: Config, k: Kernel, learned: U32, frame: Bytes, l2: nat, c: Bytes, gs: seq<Config>)
    requires Parsed4(frame, l2) && Encapsulate(cfg, k, learned, frame, l2) == Clones(c)
    requires |gs| == MAX_FRAGS && forall i :: 0 <= i < |gs| ==> gs[i].wan != 0
    ensures Carried(c, gs) == Packet(cfg, frame, l2) <==> GetU16(frame[l2 + 2..]) < 0x1_0000 - FRAG_HDR
  {
    ClonesAreClones(cfg, k, learned, frame, l2, c);
    Reassembles(c, Packet(cfg, frame, l2), RoundDown8(cfg.fragUnit), k.id, gs);
  }

  /** A packet sent whole fits the effective MTU, and carries the packet behind its headers. */
  lemma WholeFits(cfg: Config, k: Kernel, learned: U32, frame: Bytes, l2: nat, f: Bytes)
    requires Parsed4(frame, l2) && Encapsulate(cfg, k, learned, frame, l2) == Whole(f)
    ensures var len := GetU16(frame[l2 + 2..]);
            && TUNNEL_OVERHEAD + len <= EffectiveMtu(k.wanMtu, learned)
            && OUTER + len <= |f| && f[OUTER..OUTER + len] == Packet(cfg, frame, l2)
            && GetU16(f[18..]) == len && f[20] == NEXT_IPIP
  {
    var rest := Inner(cfg, frame, l2);
    var len := GetU16(rest[2..]);
    var eth, ip := Ethernet(k.hop.value), Ip6Header(0, len, NEXT_IPIP, cfg.b4, cfg.aftr);
    assert f == eth + ip + DecreaseTtl(rest);
    HeaderFields(0, len, NEXT_IPIP, cfg.b4, cfg.aftr);
    assert f[18..20] == ip[4..6] && f[20] == ip[6];
    assert f[OUTER..] == DecreaseTtl(rest);
    assert f[OUTER..OUTER + len] == f[OUTER..][..len];
  }

  /** softwireFragUnit: a unit derived from an MTU fits it, is a multiple of 8, and no larger multiple
      would fit. */
  function FragUnit(mtu: int): (unit: nat)
    ensures unit % 8 == 0
    ensures mtu > 56 ==> 8 <= unit && unit + TUNNEL_OVERHEAD + FRAG_HDR <= mtu < unit + 8 + TUNNEL_OVERHEAD + FRAG_HDR
    ensures unit == 0 <==> mtu <= 56
  {
    if mtu <= TUNNEL_OVERHEAD + FRAG_HDR + 8 then 0 else RoundDown8(mtu - TUNNEL_OVERHEAD - FRAG_HDR)
  }
}
