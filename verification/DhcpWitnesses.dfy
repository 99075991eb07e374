/** Runs of the DHCPv4 server from an empty pool at which it falls short. */
module DhcpWitnesses {
  import opened Wrappers
  import opened Addresses
  import opened ByteFields
  import opened DhcpCodec
  import opened LeaseBook
  import opened DhcpHandler
  import opened DhcpDurability
  import DhcpRuns

  /** A message of kind `mt` that asks for `ip`, and may name a server. */
  function Asks(mt: Byte, client: Client, ip: U32, server: Option<U32>): Message {
    Message(OP_REQUEST, 1, 6, 0, 0, 0, 0, NoAddr, NoAddr, NoAddr, NoAddr, client, [], [],
            [Opt(OPT_MESSAGE_TYPE, [mt]), Opt(OPT_REQUESTED_IP, PutU32(ip))]
            + if server.Some? then [Opt(OPT_SERVER_ID, PutU32(server.value))] else [])
  }

  lemma GetFirst(o: Opt, rest: seq<Opt>, code: Byte)
    ensures Get([o] + rest, code) == if o.code == code then Some(o.data) else Get(rest, code)
  {
    assert ([o] + rest)[1..] == rest;
  }

  lemma Gets(mt: Byte, ip: Bytes, sid: seq<Opt>, code: Byte)
    ensures Get([Opt(OPT_MESSAGE_TYPE, [mt]), Opt(OPT_REQUESTED_IP, ip)] + sid, code)
            == if code == OPT_MESSAGE_TYPE then Some([mt]) else if code == OPT_REQUESTED_IP then Some(ip) else Get(sid, code)
  {
    var kind, asked := Opt(OPT_MESSAGE_TYPE, [mt]), Opt(OPT_REQUESTED_IP, ip);
    assert [kind, asked] + sid == [kind] + ([asked] + sid);
    GetFirst(kind, [asked] + sid, code);
    GetFirst(asked, sid, code);
  }

  lemma AsksReads(mt: Byte, client: Client, ip: U32, server: Option<U32>)
    ensures var m := Asks(mt, client, ip, server);
            && IsType(m, mt) && ClientOf(m) == client && RequestedIP(m.options) == Some(V4(ip))
            && ServerID(m.options) == if server.Some? then Some(V4(server.value)) else None
  {
    var sid := if server.Some? then [Opt(OPT_SERVER_ID, PutU32(server.value))] else [];
    Gets(mt, PutU32(ip), sid, OPT_MESSAGE_TYPE);
    Gets(mt, PutU32(ip), sid, OPT_REQUESTED_IP);
    Gets(mt, PutU32(ip), sid, OPT_SERVER_ID);
    Gets(mt, PutU32(ip), sid, OPT_CLIENT_ID);
    assert PutU32(ip) + [] == PutU32(ip);
    U32RoundTrip(ip, []);
    if server.Some? {
      assert sid == [sid[0]] + [];
      GetFirst(sid[0], [], OPT_SERVER_ID);
      GetFirst(sid[0], [], OPT_CLIENT_ID);
      assert PutU32(server.value) + [] == PutU32(server.value);
      U32RoundTrip(server.value, []);
    }
  }

  /** A DISCOVER of a client that holds nothing, for an address no one has, is offered that address. */
  lemma Discovered(n: Net, b: Book, c: Client, ip: U32, now: int)
    requires ValidNet(n) && Sane(n, b) && Host(n, V4(ip)) && !Holds(b, c, now) && !Taken(b, V4(ip), c, now)
    ensures var (b', a) := Decide(n, b, Asks(DISCOVER, c, ip, None), now);
            && a == Grant(false, V4(ip)) && Sane(n, b')
            && c in b'.byClient && b'.byClient[c] == Binding(V4(ip), now + OFFER_HOLD_TIME, false)
  {
    AsksReads(DISCOVER, c, ip, None);
    OfferExact(n, b, c, V4(ip), now, Offer(n, b, c, V4(ip), now).1);
    OfferRebinds(n, b, c, V4(ip), now);
  }

  /** An offer to `c`, which takes another server's; at the same instant the address is offered to `d`. No
      release, no decline, and the first offer has a minute to run. */
  lemma FreedOfferRun(n: Net, c: Client, d: Client, ip: U32, other: U32, now: int) returns (r: DhcpRuns.Run)
    requires ValidNet(n) && Host(n, V4(ip)) && c != d && other != n.server
    ensures DhcpRuns.IsRun(r) && r.n == n && r.books[0] == EMPTY && |r.events| == 3
    ensures forall i :: 0 <= i < 3 ==> r.events[i].now == now
    ensures DhcpRuns.GrantsAt(r, 0, c, V4(ip)) && DhcpRuns.GrantsAt(r, 2, d, V4(ip))
    ensures DhcpRuns.GivesUpAt(r, 1, c) && IsType(r.events[1].req, REQUEST)
    ensures DhcpRuns.ExpiryAt(r, 0, c) == now + OFFER_HOLD_TIME
  {
    var m0, m1, m2 := Asks(DISCOVER, c, ip, None), Asks(REQUEST, c, ip, Some(other)), Asks(DISCOVER, d, ip, None);
    AsksReads(DISCOVER, c, ip, None);
    AsksReads(REQUEST, c, ip, Some(other));
    AsksReads(DISCOVER, d, ip, None);
    var (b1, a0) := Decide(n, EMPTY, m0, now);
    Discovered(n, EMPTY, c, ip, now);
    var (b2, a1) := Decide(n, b1, m1, now);
    Freed(n, b1, c, d, ip, other, now);
    var (b3, a2) := Decide(n, b2, m2, now);
    r := DhcpRuns.Run(n, [EMPTY, b1, b2, b3],
                      [DhcpRuns.Event(m0, now), DhcpRuns.Event(m1, now), DhcpRuns.Event(m2, now)], [a0, a1, a2]);
    assert DhcpRuns.Turn(r, 0) && DhcpRuns.Turn(r, 1) && DhcpRuns.Turn(r, 2);
  }

  lemma Freed(n: Net, b: Book, c: Client, d: Client, ip: U32, other: U32, now: int)
    requires ValidNet(n) && Sane(n, b) && c != d && other != n.server && !Holds(b, d, now)
    requires c in b.byClient && b.byClient[c].ip == V4(ip) && !b.byClient[c].committed
    ensures var m1 := Asks(REQUEST, c, ip, Some(other)); var b' := Decide(n, b, m1, now).0;
            GivesUp(n, b, m1) && Decide(n, b', Asks(DISCOVER, d, ip, None), now).1 == Grant(false, V4(ip))
  {
    AsksReads(REQUEST, c, ip, Some(other));
    AsksReads(DISCOVER, d, ip, None);
    DhcpRuns.FreedOfferIsRegranted(n, b, Asks(REQUEST, c, ip, Some(other)), Asks(DISCOVER, d, ip, None), now);
  }

  /** A REQUEST taken up, whose reply waits for the disk, and the same REQUEST again at the same reading of
      the clock, whose reply does not. */
  lemma RepeatRun(n: Net, c: Client, ip: U32, now: int, later: int) returns (b1: Book, b2: Book, b3: Book)
    requires ValidNet(n) && Host(n, V4(ip)) && c != [] && n.duration > 0 && now <= later < now + n.duration
    ensures var req := Asks(REQUEST, c, ip, Some(n.server));
            && Decide(n, EMPTY, Asks(DISCOVER, c, ip, None), now) == (b1, Grant(false, V4(ip)))
            && Decide(n, b1, req, now) == (b2, Grant(true, V4(ip))) && Waits(b1, b2, c, later)
            && Decide(n, b2, req, now) == (b3, Grant(true, V4(ip))) && !Waits(b2, b3, c, later)
  {
    var req := Asks(REQUEST, c, ip, Some(n.server));
    AsksReads(REQUEST, c, ip, Some(n.server));
    Discovered(n, EMPTY, c, ip, now);
    b1 := Decide(n, EMPTY, Asks(DISCOVER, c, ip, None), now).0;
    b2 := Decide(n, b1, req, now).0;
    b3 := Decide(n, b2, req, now).0;
    RequestKeeps(n, b1, req, now);
    GrantWaitsExactly(n, b1, b2, req, Grant(true, V4(ip)), now, later);
    RepeatLeavesAtOnce(n, b1, req, now, later, b2, Grant(true, V4(ip)));
  }
}
