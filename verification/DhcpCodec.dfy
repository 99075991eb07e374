/** The DHCPv4 wire format: options (RFC 2132, split as in RFC 3396) and messages (RFC 2131). */
module DhcpCodec {
  import opened Wrappers
  import opened Addresses
  import opened ByteFields

  const OPT_PAD: Byte := 0
  const OPT_SUBNET_MASK: Byte := 1
  const OPT_ROUTER: Byte := 3
  const OPT_DNS_SERVERS: Byte := 6
  const OPT_INTERFACE_MTU: Byte := 26
  const OPT_BROADCAST_ADDR: Byte := 28
  const OPT_REQUESTED_IP: Byte := 50
  const OPT_LEASE_TIME: Byte := 51
  const OPT_MESSAGE_TYPE: Byte := 53
  const OPT_SERVER_ID: Byte := 54
  const OPT_RENEWAL_TIME: Byte := 58
  const OPT_REBINDING_TIME: Byte := 59
  const OPT_CLIENT_ID: Byte := 61
  const OPT_END: Byte := 255

  const MAX_OPTION_DATA := 255

  datatype Opt = Opt(code: Byte, data: Bytes)

  // ---------------------------------------------------------------- options

  /** The chunks one option goes out as: the same code, at most 255 bytes each. */
  function Chunks(o: Opt): (r: seq<Opt>)
    ensures r != [] && forall i :: 0 <= i < |r| ==> r[i].code == o.code && |r[i].data| <= MAX_OPTION_DATA
    decreases |o.data|
  {
    if |o.data| <= MAX_OPTION_DATA then [o]
    else [Opt(o.code, o.data[..MAX_OPTION_DATA])] + Chunks(Opt(o.code, o.data[MAX_OPTION_DATA..]))
  }

  function AllChunks(os: seq<Opt>): seq<Opt> {
    if os == [] then [] else Chunks(os[0]) + AllChunks(os[1..])
  }

  function Joined(cs: seq<Opt>): Bytes {
    if cs == [] then [] else cs[0].data + Joined(cs[1..])
  }

  /** What a client concatenates (RFC 3396) is the original value. */
  lemma {:induction false} ChunksJoin(o: Opt)
    ensures Joined(Chunks(o)) == o.data
    decreases |o.data|
  {
    var cs := Chunks(o);
    if |o.data| <= MAX_OPTION_DATA {
      assert cs[1..] == [];
    } else {
      var rest := Opt(o.code, o.data[MAX_OPTION_DATA..]);
      ChunksJoin(rest);
      assert cs[1..] == Chunks(rest);
      assert o.data[..MAX_OPTION_DATA] + o.data[MAX_OPTION_DATA..] == o.data;
    }
  }

  /** Short options, in wire form. */
  function Wire(cs: seq<Opt>): Bytes
    requires forall i :: 0 <= i < |cs| ==> |cs[i].data| <= MAX_OPTION_DATA
  {
    if cs == [] then [] else [cs[0].code, |cs[0].data|] + cs[0].data + Wire(cs[1..])
  }

  lemma {:induction false} AllChunksShort(os: seq<Opt>)
    ensures forall i :: 0 <= i < |AllChunks(os)| ==> |AllChunks(os)[i].data| <= MAX_OPTION_DATA
  {
    if os != [] {
      AllChunksShort(os[1..]);
    }
  }

  function MarshalledOptions(os: seq<Opt>): Bytes {
    AllChunksShort(os);
    Wire(AllChunks(os))
  }

  lemma {:induction false} WireAppend(cs: seq<Opt>, ds: seq<Opt>)
    requires forall i :: 0 <= i < |cs| ==> |cs[i].data| <= MAX_OPTION_DATA
    requires forall i :: 0 <= i < |ds| ==> |ds[i].data| <= MAX_OPTION_DATA
    ensures forall i :: 0 <= i < |cs + ds| ==> |(cs + ds)[i].data| <= MAX_OPTION_DATA
    ensures Wire(cs + ds) == Wire(cs) + Wire(ds)
  {
    if cs == [] {
      assert cs + ds == ds;
    } else {
      assert (cs + ds)[0] == cs[0] && (cs + ds)[1..] == cs[1..] + ds;
      WireAppend(cs[1..], ds);
      var head := [cs[0].code, |cs[0].data|] + cs[0].data;
      assert Wire(cs + ds) == head + (Wire(cs[1..]) + Wire(ds));
      assert head + (Wire(cs[1..]) + Wire(ds)) == (head + Wire(cs[1..])) + Wire(ds);
    }
  }

  lemma {:induction false} AllChunksAppend(os: seq<Opt>, o: Opt)
    ensures AllChunks(os + [o]) == AllChunks(os) + Chunks(o)
  {
    if os == [] {
      assert [o][1..] == [];
    } else {
      assert (os + [o])[0] == os[0] && (os + [o])[1..] == os[1..] + [o];
      AllChunksAppend(os[1..], o);
      assert Chunks(os[0]) + (AllChunks(os[1..]) + Chunks(o)) == (Chunks(os[0]) + AllChunks(os[1..])) + Chunks(o);
    }
  }

  lemma MarshalledAppend(os: seq<Opt>, i: nat)
    requires i < |os|
    ensures MarshalledOptions(os[..i + 1]) == MarshalledOptions(os[..i]) + Wire(Chunks(os[i]))
  {
    assert os[..i + 1] == os[..i] + [os[i]];
    AllChunksAppend(os[..i], os[i]);
    AllChunksShort(os[..i]);
    WireAppend(AllChunks(os[..i]), Chunks(os[i]));
  }

  lemma WireStep(code: Byte, data: Bytes)
    ensures |data| <= MAX_OPTION_DATA ==> Wire(Chunks(Opt(code, data))) == [code, |data|] + data
    ensures |data| > MAX_OPTION_DATA ==>
              Wire(Chunks(Opt(code, data)))
              == [code, MAX_OPTION_DATA] + data[..MAX_OPTION_DATA] + Wire(Chunks(Opt(code, data[MAX_OPTION_DATA..])))
  {
    var cs := Chunks(Opt(code, data));
    if |data| <= MAX_OPTION_DATA {
      assert cs[1..] == [];
    } else {
      assert cs[1..] == Chunks(Opt(code, data[MAX_OPTION_DATA..]));
    }
  }

  /** The inner loop of Options.Marshal: one option, at least one chunk. */
  method MarshalOption(o: Opt) returns (b: Bytes)
    ensures b == Wire(Chunks(o))
  {
    b := [];
    var data := o.data;
    var first := true;
    while first || |data| > 0
      invariant first ==> data == o.data
      invariant if first || |data| > 0 then b + Wire(Chunks(Opt(o.code, data))) == Wire(Chunks(o)) else b == Wire(Chunks(o))
      decreases |data|, first
    {
      WireStep(o.code, data);
      var n := if |data| < MAX_OPTION_DATA then |data| else MAX_OPTION_DATA;
      ghost var rest := if |data| > n then Wire(Chunks(Opt(o.code, data[n..]))) else [];
      assert data[..n] == data || n < |data|;
      assert b + ([o.code, n] + data[..n] + rest) == b + [o.code, n] + data[..n] + rest;
      b := b + [o.code, n];
      b := b + data[..n];
      data := data[n..];
      first := false;
    }
  }

  /** Options.Marshal */
  method MarshalOptions(os: seq<Opt>) returns (b: Bytes)
    ensures b == MarshalledOptions(os)
  {
    b := [];
    for i := 0 to |os|
      invariant b == MarshalledOptions(os[..i])
    {
      var one := MarshalOption(os[i]);
      b := b + one;
      MarshalledAppend(os, i);
    }
    assert os[..|os|] == os;
  }

  /** parseOptions, on the bytes after the magic cookie: PAD is skipped, END ends, and running off
      the end is tolerated; data past the end is not. */
  function ParsedOptions(b: Bytes): Option<seq<Opt>>
    decreases |b|
  {
    if b == [] || b[0] == OPT_END then Some([])
    else if b[0] == OPT_PAD then ParsedOptions(b[1..])
    else if |b| < 2 || 2 + b[1] > |b| then None
    else
      match ParsedOptions(b[2 + b[1]..])
      case None => None
      case Some(rest) => Some([Opt(b[0], b[2..2 + b[1]])] + rest)
  }

  function Prepend(os: seq<Opt>, r: Option<seq<Opt>>): Option<seq<Opt>> {
    if r.Some? then Some(os + r.value) else None
  }

  /** One turn of the loop of parseOptions, at index `i`. */
  lemma ParseStep(b: Bytes, i: nat)
    requires i < |b|
    ensures b[i] == OPT_END ==> ParsedOptions(b[i..]) == Some([])
    ensures b[i] == OPT_PAD ==> ParsedOptions(b[i..]) == ParsedOptions(b[i + 1..])
    ensures b[i] != OPT_END && b[i] != OPT_PAD ==>
              if i + 1 >= |b| || i + 2 + b[i + 1] > |b| then ParsedOptions(b[i..]) == None
              else ParsedOptions(b[i..])
                   == Prepend([Opt(b[i], b[i + 2..i + 2 + b[i + 1]])], ParsedOptions(b[i + 2 + b[i + 1]..]))
  {
    var c := b[i..];
    assert c[1..] == b[i + 1..];
    if i + 1 < |b| && i + 2 + b[i + 1] <= |b| {
      var n := b[i + 1];
      assert c[2..2 + n] == b[i + 2..i + 2 + n] && c[2 + n..] == b[i + 2 + n..];
    }
  }

  lemma PrependPrepend(os: seq<Opt>, o: Opt, r: Option<seq<Opt>>)
    ensures Prepend(os, Prepend([o], r)) == Prepend(os + [o], r)
  {
    if r.Some? {
      assert os + ([o] + r.value) == os + [o] + r.value;
    }
  }

  lemma PrependNothing(r: Option<seq<Opt>>)
    ensures Prepend([], r) == r
    ensures r.Some? ==> Prepend(r.value, Some([])) == r
  {
    if r.Some? {
      assert [] + r.value == r.value && r.value + [] == r.value;
    }
  }

  /** parseOptions */
  method ParseOptions(b: Bytes) returns (r: Option<seq<Opt>>)
    ensures r == ParsedOptions(b)
  {
    var opts: seq<Opt> := [];
    var i := 0;
    assert b[0..] == b;
    PrependNothing(ParsedOptions(b));
    while i < |b|
      invariant 0 <= i <= |b|
      invariant ParsedOptions(b) == Prepend(opts, ParsedOptions(b[i..]))
    {
      ParseStep(b, i);
      var code := b[i];
      if code == OPT_PAD {
        i := i + 1;
        continue;
      }
      PrependNothing(Some(opts));
      if code == OPT_END {
        return Some(opts);
      }
      if i + 1 >= |b| {
        return None;
      }
      var optLen := b[i + 1];
      if i + 2 + optLen > |b| {
        return None;
      }
      var data := b[i + 2..i + 2 + optLen];
      PrependPrepend(opts, Opt(code, data), ParsedOptions(b[i + 2 + optLen..]));
      opts := opts + [Opt(code, data)];
      i := i + 2 + optLen;
    }
    PrependNothing(Some(opts));
    assert b[i..] == [];
    return Some(opts);
  }

  predicate Plain(code: Byte) {
    code != OPT_PAD && code != OPT_END
  }

  /** Options on the wire, ended by END, parse back chunk by chunk, whatever follows. */
  lemma {:induction false} WireParses(cs: seq<Opt>, tail: Bytes)
    requires forall i :: 0 <= i < |cs| ==> |cs[i].data| <= MAX_OPTION_DATA && Plain(cs[i].code)
    ensures ParsedOptions(Wire(cs) + [OPT_END] + tail) == Some(cs)
  {
    var b := Wire(cs) + [OPT_END] + tail;
    if cs != [] {
      var n := |cs[0].data|;
      var rest := Wire(cs[1..]) + [OPT_END] + tail;
      assert b == [cs[0].code, n] + cs[0].data + rest;
      assert b[2..2 + n] == cs[0].data && b[2 + n..] == rest;
      WireParses(cs[1..], tail);
      assert [cs[0]] + cs[1..] == cs;
    }
  }

  /** PAD and END never come out of a parse. */
  lemma {:induction false} ParsedArePlain(b: Bytes)
    ensures ParsedOptions(b).Some? ==> forall i :: 0 <= i < |ParsedOptions(b).value| ==> Plain(ParsedOptions(b).value[i].code)
    decreases |b|
  {
    if b != [] && b[0] != OPT_END {
      if b[0] == OPT_PAD {
        ParsedArePlain(b[1..]);
      } else if |b| >= 2 && 2 + b[1] <= |b| {
        ParsedArePlain(b[2 + b[1]..]);
      }
    }
  }

  lemma {:induction false} ChunkCodes(os: seq<Opt>)
    ensures (forall i :: 0 <= i < |os| ==> Plain(os[i].code))
            <==> forall i :: 0 <= i < |AllChunks(os)| ==> Plain(AllChunks(os)[i].code)
  {
    if os != [] {
      ChunkCodes(os[1..]);
      var cs, rest := Chunks(os[0]), AllChunks(os[1..]);
      assert AllChunks(os)[0] == cs[0];
      assert forall i :: 0 <= i < |rest| ==> rest[i] == AllChunks(os)[|cs| + i];
      assert forall i :: 1 <= i < |os| ==> os[i] == os[1..][i - 1];
    }
  }

  /** Options come back, split into chunks, exactly when none of them has the code of PAD or END. */
  lemma OptionsRoundTrip(os: seq<Opt>, tail: Bytes)
    ensures ParsedOptions(MarshalledOptions(os) + [OPT_END] + tail) == Some(AllChunks(os))
            <==> forall i :: 0 <= i < |os| ==> Plain(os[i].code)
  {
    AllChunksShort(os);
    ChunkCodes(os);
    if forall i :: 0 <= i < |AllChunks(os)| ==> Plain(AllChunks(os)[i].code) {
      WireParses(AllChunks(os), tail);
    } else {
      ParsedArePlain(MarshalledOptions(os) + [OPT_END] + tail);
    }
  }

  // ---------------------------------------------------------------- what the server reads

  /** The first option of a code. */
  function Get(os: seq<Opt>, code: Byte): (r: Option<Bytes>) {
    if os == [] then None else if os[0].code == code then Some(os[0].data) else Get(os[1..], code)
  }

  function MessageType(os: seq<Opt>): Option<Byte> {
    var d := Get(os, OPT_MESSAGE_TYPE);
    if d.Some? && |d.value| == 1 then Some(d.value[0]) else None
  }

  function AddrOption(os: seq<Opt>, code: Byte): (r: Option<Addr>)
    ensures r.Some? ==> r.value.V4?
  {
    var d := Get(os, code);
    if d.Some? && |d.value| == 4 then Some(V4(GetU32(d.value))) else None
  }

  function RequestedIP(os: seq<Opt>): (r: Option<Addr>)
    ensures r.Some? ==> r.value.V4?
  {
    AddrOption(os, OPT_REQUESTED_IP)
  }

  function ServerID(os: seq<Opt>): (r: Option<Addr>)
    ensures r.Some? ==> r.value.V4?
  {
    AddrOption(os, OPT_SERVER_ID)
  }

  /** The client-identifier if there is one, else the hardware address. */
  function ClientID(os: seq<Opt>, chaddr: Bytes): Bytes {
    var d := Get(os, OPT_CLIENT_ID);
    if d.Some? && |d.value| > 0 then d.value else chaddr
  }

  // ---------------------------------------------------------------- messages

  const BOOTP_FIXED_LEN := 236
  const MIN_MESSAGE_LEN := 300
  const MAGIC_COOKIE: Bytes := [0x63, 0x82, 0x53, 0x63]
  const FLAG_BROADCAST := 0x8000

  datatype Message = Message(
    op: Byte, htype: Byte, hlen: Byte, hops: Byte,
    xid: U32, secs: U16, flags: U16,
    ciaddr: Addr, yiaddr: Addr, siaddr: Addr, giaddr: Addr,
    chaddr: Bytes, sname: Bytes, file: Bytes,
    options: seq<Opt>)

  /** putAddr4: four zero bytes for anything but an IPv4 address. */
  function PutAddr4(a: Addr): (b: Bytes)
    ensures |b| == 4
  {
    PutU32(if a.V4? then a.v4 else 0)
  }

  function GetAddr4(b: Bytes): Addr
    requires |b| >= 4
  {
    V4(GetU32(b))
  }

  /** cstr: the bytes before the first NUL. */
  function CStr(b: Bytes): (s: Bytes)
    ensures |s| <= |b| && s == b[..|s|] && 0 !in s && (|s| < |b| ==> b[|s|] == 0)
    decreases |b|
  {
    if b == [] || b[0] == 0 then [] else [b[0]] + CStr(b[1..])
  }

  /** The fixed part, in three runs of fields. */
  function Header(m: Message): (b: Bytes)
    ensures |b| == BOOTP_FIXED_LEN
  {
    Front(m) + Addresses4(m) + Names(m)
  }

  function Front(m: Message): (b: Bytes)
    ensures |b| == 12
  {
    [m.op, m.htype, m.hlen, m.hops] + PutU32(m.xid) + PutU16(m.secs) + PutU16(m.flags)
  }

  function Addresses4(m: Message): (b: Bytes)
    ensures |b| == 16
  {
    PutAddr4(m.ciaddr) + PutAddr4(m.yiaddr) + PutAddr4(m.siaddr) + PutAddr4(m.giaddr)
  }

  function Names(m: Message): (b: Bytes)
    ensures |b| == 208
  {
    Field(m.chaddr, 16) + Field(m.sname, 64) + Field(m.file, 128)
  }

  function Padding(n: nat): Bytes {
    Zeros(if n < MIN_MESSAGE_LEN then MIN_MESSAGE_LEN - n else 0)
  }

  function Marshalled(m: Message): Bytes {
    var b := Header(m) + MAGIC_COOKIE + MarshalledOptions(m.options) + [OPT_END];
    b + Padding(|b|)
  }

  /** Message.Parse */
  function Parsed(b: Bytes): Option<Message> {
    if |b| < BOOTP_FIXED_LEN + 4 || b[BOOTP_FIXED_LEN..BOOTP_FIXED_LEN + 4] != MAGIC_COOKIE then None
    else
      match ParsedOptions(b[BOOTP_FIXED_LEN + 4..])
      case None => None
      case Some(options) =>
        var hlen := if b[2] < 16 then b[2] else 16;
        Some(Message(b[0], b[1], b[2], b[3], GetU32(b[4..]), GetU16(b[8..]), GetU16(b[10..]),
                     GetAddr4(b[12..]), GetAddr4(b[16..]), GetAddr4(b[20..]), GetAddr4(b[24..]),
                     b[28..28 + hlen], CStr(b[44..108]), CStr(b[108..236]), options))
  }

  /** Overwrites part of a buffer. */
  method Put(b: array<Byte>, at: nat, src: Bytes)
    requires at + |src| <= b.Length
    modifies b
    ensures b[..at + |src|] == old(b[..at]) + src
    ensures forall i :: at + |src| <= i < b.Length ==> b[i] == old(b[i])
  {
    for i := 0 to |src|
      invariant b[..at + i] == old(b[..at]) + src[..i]
      invariant forall j :: at + i <= j < b.Length ==> b[j] == old(b[j])
    {
      b[at + i] := src[i];
      assert b[..at + i + 1] == b[..at + i] + [src[i]];
    }
    assert src[..|src|] == src;
  }

  /** copy into a field of `n` bytes of a zeroed buffer */
  method PutField(b: array<Byte>, at: nat, n: nat, src: Bytes)
    requires at + n <= b.Length
    requires forall i :: at <= i < b.Length ==> b[i] == 0
    modifies b
    ensures b[..at + n] == old(b[..at]) + Field(src, n)
    ensures forall i :: at + n <= i < b.Length ==> b[i] == 0
  {
    var cut := if |src| <= n then src else src[..n];
    ghost var before := b[..at];
    Put(b, at, cut);
    assert b[..at + n] == before + Field(src, n) by {
      assert b[..at + n] == b[..at + |cut|] + b[at + |cut|..at + n];
      assert cut + b[at + |cut|..at + n] == Field(src, n);
      assert (before + cut) + b[at + |cut|..at + n] == before + (cut + b[at + |cut|..at + n]);
    }
  }

  method PutFront(b: array<Byte>, m: Message)
    requires b.Length == BOOTP_FIXED_LEN && forall i :: 0 <= i < b.Length ==> b[i] == 0
    modifies b
    ensures b[..12] == Front(m) && forall i :: 12 <= i < b.Length ==> b[i] == 0
  {
    b[0], b[1], b[2], b[3] := m.op, m.htype, m.hlen, m.hops;
    assert b[..4] == [m.op, m.htype, m.hlen, m.hops];
    Put(b, 4, PutU32(m.xid));
    Put(b, 8, PutU16(m.secs));
    Put(b, 10, PutU16(m.flags));
  }

  method PutAddresses(b: array<Byte>, m: Message)
    requires b.Length == BOOTP_FIXED_LEN && forall i :: 12 <= i < b.Length ==> b[i] == 0
    modifies b
    ensures b[..28] == old(b[..12]) + Addresses4(m) && forall i :: 28 <= i < b.Length ==> b[i] == 0
  {
    ghost var front := b[..12];
    Put(b, 12, PutAddr4(m.ciaddr));
    Put(b, 16, PutAddr4(m.yiaddr));
    Put(b, 20, PutAddr4(m.siaddr));
    Put(b, 24, PutAddr4(m.giaddr));
    assert b[..28] == front + Addresses4(m);
  }

  /** Message.Marshal */
  method Marshal(m: Message) returns (out: Bytes)
    ensures out == Marshalled(m)
  {
    var b := new Byte[BOOTP_FIXED_LEN](_ => 0);
    PutFront(b, m);
    PutAddresses(b, m);
    PutField(b, 28, 16, m.chaddr);
    PutField(b, 44, 64, m.sname);
    PutField(b, 108, 128, m.file);
    assert b[..BOOTP_FIXED_LEN] == Header(m);
    out := b[..];
    assert out == Header(m);
    out := out + MAGIC_COOKIE;
    var opts := MarshalOptions(m.options);
    out := out + opts;
    out := out + [OPT_END];
    ghost var whole := out;
    while |out| < MIN_MESSAGE_LEN
      invariant |whole| <= |out| && out == whole + Zeros(|out| - |whole|)
      invariant |out| == |whole| || |out| <= MIN_MESSAGE_LEN
    {
      out := out + [OPT_PAD];
    }
    assert Zeros(|out| - |whole|) == Padding(|whole|);
  }

  // ---------------------------------------------------------------- round trip

  /** What survives of an address: anything but IPv4 comes back as 0.0.0.0. */
  function Plain4(a: Addr): Addr {
    if a.V4? then a else V4(0)
  }

  /** The message a peer reads. */
  function Normalised(m: Message): Message {
    m.(ciaddr := Plain4(m.ciaddr), yiaddr := Plain4(m.yiaddr), siaddr := Plain4(m.siaddr), giaddr := Plain4(m.giaddr),
       chaddr := Field(m.chaddr, 16)[..if m.hlen < 16 then m.hlen else 16],
       sname := CStr(Field(m.sname, 64)), file := CStr(Field(m.file, 128)),
       options := AllChunks(m.options))
  }

  lemma FrontRoundTrip(m: Message, rest: Bytes)
    ensures var b := Front(m) + rest;
            && b[0] == m.op && b[1] == m.htype && b[2] == m.hlen && b[3] == m.hops
            && GetU32(b[4..]) == m.xid && GetU16(b[8..]) == m.secs && GetU16(b[10..]) == m.flags
  {
    var b := Front(m) + rest;
    var flags := PutU16(m.flags) + rest;
    var secs := PutU16(m.secs) + flags;
    assert b[10..] == flags && b[8..] == secs && b[4..] == PutU32(m.xid) + secs;
    U32RoundTrip(m.xid, secs);
    U16RoundTrip(m.secs, flags);
    U16RoundTrip(m.flags, rest);
  }

  lemma AddrRoundTrip(a: Addr, rest: Bytes)
    ensures GetAddr4(PutAddr4(a) + rest) == Plain4(a)
  {
    U32RoundTrip(if a.V4? then a.v4 else 0, rest);
  }

  lemma AddressesRoundTrip(m: Message, front: Bytes, rest: Bytes)
    requires |front| == 12
    ensures var b := front + Addresses4(m) + rest;
            && GetAddr4(b[12..]) == Plain4(m.ciaddr) && GetAddr4(b[16..]) == Plain4(m.yiaddr)
            && GetAddr4(b[20..]) == Plain4(m.siaddr) && GetAddr4(b[24..]) == Plain4(m.giaddr)
  {
    var b := front + Addresses4(m) + rest;
    var gi := PutAddr4(m.giaddr) + rest;
    var si := PutAddr4(m.siaddr) + gi;
    var yi := PutAddr4(m.yiaddr) + si;
    assert b[24..] == gi && b[20..] == si && b[16..] == yi && b[12..] == PutAddr4(m.ciaddr) + yi;
    AddrRoundTrip(m.ciaddr, yi);
    AddrRoundTrip(m.yiaddr, si);
    AddrRoundTrip(m.siaddr, gi);
    AddrRoundTrip(m.giaddr, rest);
  }

  lemma NamesRoundTrip(m: Message, front: Bytes, rest: Bytes)
    requires |front| == 28
    ensures var b := front + Names(m) + rest;
            b[28..44] == Field(m.chaddr, 16) && b[44..108] == Field(m.sname, 64) && b[108..236] == Field(m.file, 128)
  {
  }

  lemma HeaderRoundTrip(m: Message, tail: Bytes)
    ensures var b := Header(m) + tail;
            && b[0] == m.op && b[1] == m.htype && b[2] == m.hlen && b[3] == m.hops
            && GetU32(b[4..]) == m.xid && GetU16(b[8..]) == m.secs && GetU16(b[10..]) == m.flags
            && GetAddr4(b[12..]) == Plain4(m.ciaddr) && GetAddr4(b[16..]) == Plain4(m.yiaddr)
            && GetAddr4(b[20..]) == Plain4(m.siaddr) && GetAddr4(b[24..]) == Plain4(m.giaddr)
            && b[28..44] == Field(m.chaddr, 16) && b[44..108] == Field(m.sname, 64) && b[108..236] == Field(m.file, 128)
  {
    var front, addrs, names := Front(m), Addresses4(m), Names(m);
    var b := front + addrs + names + tail;
    assert b == front + (addrs + names + tail);
    FrontRoundTrip(m, addrs + names + tail);
    assert b == front + addrs + (names + tail);
    AddressesRoundTrip(m, front, names + tail);
    NamesRoundTrip(m, front + addrs, tail);
  }

  /** Reading what follows a written header. */
  lemma ParsedHeader(m: Message, body: Bytes)
    ensures Parsed(Header(m) + (MAGIC_COOKIE + body))
            == match ParsedOptions(body)
               case None => None
               case Some(options) => Some(Normalised(m).(options := options))
  {
    var tail := MAGIC_COOKIE + body;
    var b := Header(m) + tail;
    HeaderRoundTrip(m, tail);
    assert b[BOOTP_FIXED_LEN..BOOTP_FIXED_LEN + 4] == MAGIC_COOKIE;
    assert b[BOOTP_FIXED_LEN + 4..] == body;
    var hlen := if m.hlen < 16 then m.hlen else 16;
    assert b[28..28 + hlen] == b[28..44][..hlen];
  }

  /** Every message parses back as its normalised form, exactly when no option has the code of PAD or
      END. */
  lemma MessageRoundTrip(m: Message)
    ensures Parsed(Marshalled(m)) == Some(Normalised(m))
            <==> forall i :: 0 <= i < |m.options| ==> Plain(m.options[i].code)
  {
    var opts := MarshalledOptions(m.options);
    var whole := Header(m) + MAGIC_COOKIE + opts + [OPT_END];
    var pad := Padding(|whole|);
    var body := opts + [OPT_END] + pad;
    assert whole + pad == Header(m) + (MAGIC_COOKIE + body);
    ParsedHeader(m, body);
    OptionsRoundTrip(m.options, pad);
  }

  /** The string in a NUL-padded buffer is the only prefix free of NULs that stops at one. */
  lemma {:induction false} CStrUnique(b: Bytes, s: Bytes)
    requires s <= b && 0 !in s && (|s| < |b| ==> b[|s|] == 0)
    ensures CStr(b) == s
    decreases |b|
  {
    if s != [] {
      assert s[0] in s && b[0] == s[0];
      CStrUnique(b[1..], s[1..]);
    }
  }

  lemma CStrOfField(s: Bytes, n: nat)
    ensures CStr(Field(s, n)) == s <==> |s| <= n && 0 !in s
  {
    if |s| <= n && 0 !in s {
      CStrUnique(Field(s, n), s);
    }
  }

  /** Nothing but the splitting of long options is lost exactly for IPv4 addresses, a hardware address
      of the stated length, and names that fit and hold no NUL. */
  lemma NothingLost(m: Message)
    ensures Normalised(m) == m.(options := AllChunks(m.options))
            <==> && m.ciaddr.V4? && m.yiaddr.V4? && m.siaddr.V4? && m.giaddr.V4?
                 && |m.chaddr| == (if m.hlen < 16 then m.hlen else 16)
                 && |m.sname| <= 64 && 0 !in m.sname && |m.file| <= 128 && 0 !in m.file
  {
    CStrOfField(m.sname, 64);
    CStrOfField(m.file, 128);
    var n := if m.hlen < 16 then m.hlen else 16;
    if |m.chaddr| == n {
      assert Field(m.chaddr, 16)[..n] == m.chaddr;
    }
  }
}
