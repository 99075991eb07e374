/** The messages the DHCPv4 server sends. */
module DhcpReplies {
  import opened Wrappers
  import opened Addresses
  import opened ByteFields
  import opened Powers
  import opened DhcpCodec
  import opened LeaseBook
  import opened DhcpHandler

  /** What the server is configured to tell its clients beside their address. */
  datatype Config = Config(net: Net, dns: seq<U32>, mtu: U16)

  function TypeOption(mt: Byte): Opt {
    Opt(OPT_MESSAGE_TYPE, [mt])
  }

  function NewAddr(code: Byte, a: U32): Opt {
    Opt(code, PutU32(a))
  }

  function AddrBytes(addrs: seq<U32>): Bytes {
    if addrs == [] then [] else PutU32(addrs[0]) + AddrBytes(addrs[1..])
  }

  /** Whole seconds, at most what the field holds. */
  function NewSeconds(code: Byte, d: int): Opt {
    var secs := if d < 0 then 0 else d / SECOND;
    Opt(code, PutU32(if secs > 0xffff_ffff then 0xffff_ffff else secs))
  }

  lemma SizeFits(bits: int)
    requires 0 <= bits <= 32
    ensures 1 <= Size(bits) <= 0x1_0000_0000
  {
    Pow2At32();
    Pow2Divides(32 - bits, 32);
    Multiple(Pow2(bits), Size(bits));
  }

  function SubnetMask(bits: int): U32
    requires 0 <= bits <= 32
  {
    SizeFits(bits);
    if bits == 0 then 0 else 0x1_0000_0000 - Size(bits)
  }

  function ConfigOptions(cfg: Config): seq<Opt>
    requires ValidNet(cfg.net)
  {
    [NewAddr(OPT_SUBNET_MASK, SubnetMask(cfg.net.bits)),
     NewAddr(OPT_ROUTER, cfg.net.server),
     NewAddr(OPT_BROADCAST_ADDR, Broadcast(cfg.net))]
    + (if |cfg.dns| > 0 then [Opt(OPT_DNS_SERVERS, AddrBytes(cfg.dns))] else [])
    + (if cfg.mtu != 0 then [Opt(OPT_INTERFACE_MTU, PutU16(cfg.mtu))] else [])
  }

  function BaseReply(req: Message): Message {
    Message(OP_REPLY, 1, 6, 0, req.xid, 0, req.flags, NoAddr, NoAddr, NoAddr, req.giaddr, req.chaddr, [], [], [])
  }

  function WithBroadcast(flags: U16): U16 {
    if flags >= FLAG_BROADCAST then flags else flags + FLAG_BROADCAST
  }

  function LeaseTimes(n: Net): seq<Opt> {
    [NewSeconds(OPT_LEASE_TIME, n.duration),
     NewSeconds(OPT_RENEWAL_TIME, n.duration / 2),
     NewSeconds(OPT_REBINDING_TIME, n.duration * 7 / 8)]
  }

  /** buildReply, buildNAK and buildInformAck */
  function Reply(cfg: Config, req: Message, a: Answer): Option<Message>
    requires ValidNet(cfg.net)
  {
    var m := BaseReply(req);
    var id := NewAddr(OPT_SERVER_ID, cfg.net.server);
    match a
    case Silent => None
    case Grant(ack, ip) =>
      Some(m.(yiaddr := ip,
              options := [TypeOption(if ack then ACK else OFFER), id] + LeaseTimes(cfg.net) + ConfigOptions(cfg)))
    case Refuse => Some(m.(flags := WithBroadcast(m.flags), options := [TypeOption(NAK), id]))
    case Inform => Some(m.(ciaddr := req.ciaddr, options := [TypeOption(ACK), id] + ConfigOptions(cfg)))
  }

  /** Every reply is well formed on the wire: no option has the code of PAD or END. */
  lemma ReplyOptionsPlain(cfg: Config, req: Message, a: Answer)
    requires ValidNet(cfg.net) && Reply(cfg, req, a).Some?
    ensures var os := Reply(cfg, req, a).value.options; forall i :: 0 <= i < |os| ==> Plain(os[i].code)
  {
  }

  /** The first option goes out whole and first. */
  lemma FirstChunk(os: seq<Opt>)
    requires os != [] && |os[0].data| <= MAX_OPTION_DATA
    ensures AllChunks(os) != [] && AllChunks(os)[0] == os[0]
  {
    assert AllChunks(os) == [os[0]] + AllChunks(os[1..]);
  }

  lemma SecondChunk(os: seq<Opt>)
    requires |os| >= 2 && |os[0].data| <= MAX_OPTION_DATA && |os[1].data| <= MAX_OPTION_DATA
    ensures |AllChunks(os)| >= 2 && AllChunks(os)[0] == os[0] && AllChunks(os)[1] == os[1]
  {
    assert AllChunks(os) == [os[0]] + AllChunks(os[1..]);
    FirstChunk(os[1..]);
  }

  lemma ReadKindAndServer(os: seq<Opt>, mt: Byte, server: U32)
    requires |os| >= 2 && os[0] == TypeOption(mt) && os[1] == NewAddr(OPT_SERVER_ID, server)
    ensures MessageType(AllChunks(os)) == Some(mt) && ServerID(AllChunks(os)) == Some(V4(server))
  {
    SecondChunk(os);
    var cs := AllChunks(os);
    assert cs[1..][0] == cs[1];
    assert Get(cs, OPT_SERVER_ID) == Get(cs[1..], OPT_SERVER_ID) == Some(PutU32(server));
    U32RoundTrip(server, []);
    assert PutU32(server) + [] == PutU32(server);
  }

  lemma ReadBack(m: Message, mt: Byte, server: U32)
    requires forall i :: 0 <= i < |m.options| ==> Plain(m.options[i].code)
    requires |m.options| >= 2 && m.options[0] == TypeOption(mt) && m.options[1] == NewAddr(OPT_SERVER_ID, server)
    ensures var r := Parsed(Marshalled(m));
            && r.Some? && r.value.yiaddr == Plain4(m.yiaddr) && r.value.xid == m.xid && r.value.op == m.op
            && MessageType(r.value.options) == Some(mt) && ServerID(r.value.options) == Some(V4(server))
  {
    MessageRoundTrip(m);
    ReadKindAndServer(m.options, mt, server);
  }

  /** A client that reads the bytes of an OFFER or ACK finds the granted address, the kind of the reply,
      its own transaction and the server's identifier. */
  lemma GrantReadBack(cfg: Config, req: Message, ack: bool, ip: Addr)
    requires ValidNet(cfg.net) && ip.V4?
    ensures var r := Parsed(Marshalled(Reply(cfg, req, Grant(ack, ip)).value));
            && r.Some? && r.value.yiaddr == ip && r.value.xid == req.xid && r.value.op == OP_REPLY
            && MessageType(r.value.options) == Some(if ack then ACK else OFFER)
            && ServerID(r.value.options) == Some(Server(cfg.net))
  {
    ReplyOptionsPlain(cfg, req, Grant(ack, ip));
    ReadBack(Reply(cfg, req, Grant(ack, ip)).value, if ack then ACK else OFFER, cfg.net.server);
  }
}
