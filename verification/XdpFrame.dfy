/** The frame an XDP program holds, rewritten in place. */
module XdpFrame {
  import opened Addresses
  import opened ByteFields
  import opened Checksum
  import opened Fragmentation

  class Frame {
    var bytes: Bytes

    constructor (b: Bytes)
      ensures bytes == b
    {
      bytes := b;
    }

    /** bpf_xdp_adjust_head, forward. */
    method TrimHead(n: nat)
      requires n <= |bytes|
      modifies this
      ensures bytes == old(bytes)[n..]
    {
      bytes := bytes[n..];
    }

    /** bpf_xdp_adjust_head, backward: what the frame then begins with is whatever lay there. */
    method GrowHead(room: Bytes)
      modifies this
      ensures bytes == room + old(bytes)
    {
      bytes := room + bytes;
    }

    /** bpf_xdp_adjust_tail */
    method TrimTail(n: nat)
      requires n <= |bytes|
      modifies this
      ensures bytes == old(bytes)[..|old(bytes)| - n]
    {
      bytes := bytes[..|bytes| - n];
    }

    method Write(at: nat, b: Bytes)
      requires at + |b| <= |bytes|
      modifies this
      ensures bytes == old(bytes)[..at] + b + old(bytes)[at + |b|..]
    {
      bytes := bytes[..at] + b + bytes[at + |b|..];
    }

    /** encap_fragment_outer once its guards have passed, for a frame with `l2` bytes before the packet.
        `room` is what the head of the frame grows over. */
    method EncapFragment(cfg: Config, hop: (Mac, Mac), id: U32, l2: nat, room: Bytes)
      requires l2 + IPV4_LEN <= |bytes| && bytes[l2 + TTL] >= 1 && |room| + l2 == HEADERS
      modifies this
      ensures bytes == Transport(cfg, hop, id, old(bytes)[l2..], GetU16(old(bytes)[l2 + 2..]))
    {
      ghost var rest := bytes[l2..];
      var innerLen := GetU16(bytes[l2 + 2..]);
      var unit := RoundDown8(cfg.fragUnit) % 0x1_0000;
      GrowHead(room);
      assert bytes[HEADERS..] == rest;
      Write(0, Ethernet(hop));
      Write(ETH, Ip6Header(unit, (innerLen + FRAG_HDR) % 0x1_0000, NEXT_FRAGMENT, cfg.b4, cfg.aftr));
      Write(OUTER, FragHeader(NEXT_IPIP, 1, id));
      assert bytes[HEADERS..] == rest;
      var headers := bytes[..HEADERS];
      assert headers == Ethernet(hop)
                        + Ip6Header(unit, (innerLen + FRAG_HDR) % 0x1_0000, NEXT_FRAGMENT, cfg.b4, cfg.aftr)
                        + FragHeader(NEXT_IPIP, 1, id);
      bytes := headers + DecreaseTtl(bytes[HEADERS..]);
    }

    /** emit_softwire_fragment: cuts this clone down to fragment `idx`, or drops it. */
    method EmitFragment(idx: nat, g: Config) returns (sent: bool)
      modifies this
      ensures sent == Emit(idx, old(bytes), g).Some?
      ensures sent ==> bytes == Emit(idx, old(bytes), g).value
    {
      if |bytes| < HEADERS || bytes[12] != 0x86 || bytes[13] != 0xdd || bytes[ETH] / 16 != 6 {
        return false;
      }
      var plen := GetU16(bytes[18..]);
      if OUTER + plen > |bytes| || bytes[20] != NEXT_FRAGMENT {
        return false;
      }
      if plen < FRAG_HDR + IPV4_LEN || g.wan == 0 {
        return false;
      }
      var total := plen - FRAG_HDR;
      var unit := RoundDown8(GetU16(bytes[16..]));
      if unit < 8 {
        return false;
      }
      Aligned(idx, unit);
      var start := idx * unit;
      if start >= total {
        return false;
      }
      var len, last := total - start, true;
      if len > unit {
        len, last := unit, false;
      }
      Slice(start, len, total, last);
      return true;
    }

    /** The trimming and the rewriting of the headers from their copies. */
    method Slice(start: nat, len: nat, total: nat, last: bool)
      requires start % 8 == 0 && 0 < len && start + len <= total && HEADERS + total <= |bytes|
      requires total < 0x1_0000 - FRAG_HDR && last == (start + len == total)
      modifies this
      ensures bytes == Cut(old(bytes), start, len, total)
    {
      ghost var c := bytes;
      var eth, ip6, fh := bytes[..ETH], bytes[ETH..OUTER], bytes[OUTER..HEADERS];
      Trim(start, total - start - len);
      SliceBehind(c, start, total - start - len);
      Headers(c, start, len, total);
      ip6 := [ip6[0], 0, 0, 0] + PutU16(len + FRAG_HDR) + ip6[6..];
      fh := fh[..2] + PutU16(if last then start else start + 1) + fh[4..];
      WriteHeaders(eth, ip6, fh);
    }

    method Trim(head: nat, tail: nat)
      requires head + tail <= |bytes|
      modifies this
      ensures bytes == old(bytes)[head..|old(bytes)| - tail]
    {
      if head > 0 {
        TrimHead(head);
      }
      if tail > 0 {
        TrimTail(tail);
      }
    }

    method WriteHeaders(eth: Bytes, ip6: Bytes, fh: Bytes)
      requires |eth| == ETH && |ip6| == 40 && |fh| == FRAG_HDR && HEADERS <= |bytes|
      modifies this
      ensures bytes == eth + ip6 + fh + old(bytes)[HEADERS..]
    {
      Write(0, eth);
      Write(ETH, ip6);
      Write(OUTER, fh);
    }
  }

  lemma SliceBehind(c: Bytes, head: nat, tail: nat)
    requires HEADERS + head + tail <= |c|
    ensures c[head..|c| - tail][HEADERS..] == c[HEADERS + head..|c| - tail]
  {
    SubSlice(c, head, |c| - tail, HEADERS, |c| - tail - head);
  }

  /** The headers of a fragment, one by one. */
  lemma Headers(c: Bytes, start: nat, len: nat, total: nat)
    requires start % 8 == 0 && start + len <= total && HEADERS + total <= |c| && total < 0x1_0000 - FRAG_HDR
    ensures var ip6, fh := c[ETH..OUTER], c[OUTER..HEADERS];
            Cut(c, start, len, total)
            == c[..ETH] + ([ip6[0], 0, 0, 0] + PutU16(len + FRAG_HDR) + ip6[6..])
               + (fh[..2] + PutU16(if start + len == total then start else start + 1) + fh[4..])
               + c[HEADERS + start..|c| - (total - start - len)]
  {
    var ip6, fh := c[ETH..OUTER], c[OUTER..HEADERS];
    SubSlice(c, ETH, OUTER, 6, 40);
    SubSlice(c, OUTER, HEADERS, 0, 2);
    SubSlice(c, OUTER, HEADERS, 4, 8);
    assert c[20..56] == c[20..54] + c[54..56];
  }
}
