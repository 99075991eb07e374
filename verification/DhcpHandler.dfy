/** The DHCPv4 server's decisions (section 4.3 of RFC 2131): one request against the book of leases. */
module DhcpHandler {
  import opened Wrappers
  import opened Addresses
  import opened ByteFields
  import opened DhcpCodec
  import opened LeaseBook
  import opened LeasePool

  const OP_REQUEST: Byte := 1
  const OP_REPLY: Byte := 2

  const DISCOVER: Byte := 1
  const OFFER: Byte := 2
  const REQUEST: Byte := 3
  const DECLINE: Byte := 4
  const ACK: Byte := 5
  const NAK: Byte := 6
  const RELEASE: Byte := 7
  const INFORM: Byte := 8

  /** What the server answers. `Grant` is an OFFER or an ACK of an address. */
  datatype Answer = Silent | Grant(ack: bool, ip: Addr) | Refuse | Inform

  function ClientOf(req: Message): Client {
    ClientID(req.options, req.chaddr)
  }

  function Server(n: Net): Addr {
    V4(n.server)
  }

  /** Requests the server looks at: not relayed, and of a known shape. */
  predicate Direct(req: Message) {
    req.op == OP_REQUEST && (req.giaddr == NoAddr || req.giaddr.IsUnspecified()) && MessageType(req.options).Some?
  }

  predicate IsType(req: Message, mt: Byte) {
    Direct(req) && MessageType(req.options) == Some(mt)
  }

  /** Handle */
  function Decide(n: Net, b: Book, req: Message, now: int): (Book, Answer)
    requires ValidNet(n)
  {
    var c := ClientOf(req);
    if !Direct(req) then (b, Silent)
    else if IsType(req, DISCOVER) then
      var asked := RequestedIP(req.options);
      var (b', r) := Offer(n, b, c, if asked.Some? then asked.value else NoAddr, now);
      (b', if r.Some? then Grant(false, r.value) else Silent)
    else if IsType(req, REQUEST) then DecideRequest(n, b, req, c, now)
    else if IsType(req, RELEASE) then
      var sid := ServerID(req.options);
      (if sid.Some? && sid.value != Server(n) then b else Release(b, c, req.ciaddr), Silent)
    else if IsType(req, DECLINE) then
      var sid := ServerID(req.options);
      var asked := RequestedIP(req.options);
      (if sid == Some(Server(n)) && asked.Some? then Decline(b, c, asked.value, now) else b, Silent)
    else if IsType(req, INFORM) then (b, Inform)
    else (b, Silent)
  }

  /** handleRequest: SELECTING with a server identifier, else INIT-REBOOT, RENEWING or REBINDING. */
  function DecideRequest(n: Net, b: Book, req: Message, c: Client, now: int): (Book, Answer)
    requires ValidNet(n)
  {
    var asked := RequestedIP(req.options);
    var sid := ServerID(req.options);
    var bound := Bound(b, c, now);
    if sid.Some? then
      if sid.value != Server(n) then (CancelOffer(b, c), Silent)
      else if asked.None? then (b, Silent)
      else if bound != asked then (b, Refuse)
      else (Commit(n, b, c, asked.value, now), Grant(true, asked.value))
    else
      var target := if asked.Some? then asked.value else req.ciaddr;
      if target == NoAddr || target.IsUnspecified() then (b, Silent)
      else if bound.None? then (b, Silent)
      else if bound.value != target then (b, Refuse)
      else (Commit(n, b, c, target, now), Grant(true, target))
  }

  /** Handle, on the pool itself. */
  method Handle(pool: Pool, req: Message, now: int) returns (a: Answer)
    requires pool.Valid()
    modifies pool
    ensures pool.Valid() && (pool.View(), a) == Decide(pool.net, old(pool.View()), req, now)
  {
    if req.op != OP_REQUEST {
      return Silent;
    }
    if req.giaddr != NoAddr && !req.giaddr.IsUnspecified() {
      return Silent;
    }
    var mt := MessageType(req.options);
    if mt.None? {
      return Silent;
    }
    var c := ClientID(req.options, req.chaddr);
    var asked := RequestedIP(req.options);
    var sid := ServerID(req.options);
    if mt.value == DISCOVER {
      var ip := pool.Offer(c, if asked.Some? then asked.value else NoAddr, now);
      if ip.None? {
        return Silent;
      }
      return Grant(false, ip.value);
    } else if mt.value == REQUEST {
      a := HandleRequest(pool, req, c, now);
    } else if mt.value == RELEASE {
      if !(sid.Some? && sid.value != Server(pool.net)) {
        pool.Release(c, req.ciaddr);
      }
      return Silent;
    } else if mt.value == DECLINE {
      if sid != Some(Server(pool.net)) {
        return Silent;
      }
      if asked.Some? {
        pool.Decline(c, asked.value, now);
      }
      return Silent;
    } else if mt.value == INFORM {
      return Inform;
    } else {
      return Silent;
    }
  }

  method HandleRequest(pool: Pool, req: Message, c: Client, now: int) returns (a: Answer)
    requires pool.Valid()
    modifies pool
    ensures pool.Valid() && (pool.View(), a) == DecideRequest(pool.net, old(pool.View()), req, c, now)
  {
    var asked := RequestedIP(req.options);
    var sid := ServerID(req.options);
    if sid.Some? {
      if sid.value != Server(pool.net) {
        pool.CancelOffer(c);
        return Silent;
      }
      if asked.None? {
        return Silent;
      }
      var bound := pool.BoundTo(c, now);
      if bound != asked {
        return Refuse;
      }
      pool.Commit(c, asked.value, now);
      return Grant(true, asked.value);
    }
    var target := if asked.Some? then asked.value else req.ciaddr;
    if target == NoAddr || target.IsUnspecified() {
      return Silent;
    }
    var bound := pool.BoundTo(c, now);
    if bound.None? {
      return Silent;
    }
    if bound.value != target {
      return Refuse;
    }
    pool.Commit(c, target, now);
    return Grant(true, target);
  }

  // ---------------------------------------------------------------- what one request does

  /** The client gave its address up: it released or declined it, or took another server's offer. */
  predicate GivesUp(n: Net, b: Book, req: Message) {
    var c := ClientOf(req);
    c in b.byClient
    && (|| (IsType(req, RELEASE) && req.ciaddr == b.byClient[c].ip && ServerID(req.options) in {None, Some(Server(n))})
        || (IsType(req, DECLINE) && RequestedIP(req.options) == Some(b.byClient[c].ip)
            && ServerID(req.options) == Some(Server(n)))
        || (IsType(req, REQUEST) && ServerID(req.options).Some? && ServerID(req.options) != Some(Server(n))
            && !b.byClient[c].committed))
  }

  /** One request: with a book in order, what becomes of it, of the client's own binding, and of
      every other. */
  ghost predicate Effect(n: Net, b: Book, b': Book, req: Message, a: Answer, now: int)
    requires ValidNet(n)
  {
    var c := ClientOf(req);
    && Sane(n, b')
    // a running binding of another client is left alone
    && (forall d :: d != c && Holds(b, d, now) ==> d in b'.byClient && b'.byClient[d] == b.byClient[d])
    // nothing is bound but by a grant
    && (forall d :: d in b'.byClient && (d !in b.byClient || b'.byClient[d] != b.byClient[d]) ==> d == c && a.Grant?)
    // a grant is of an address to hand out, that nobody else holds
    && (a.Grant? ==>
          && Host(n, a.ip) && !Taken(b, a.ip, c, now)
          && c in b'.byClient && b'.byClient[c].ip == a.ip
          && b'.byClient[c].expiry == now + HoldFor(n, b'.byClient[c].committed)
          && (b'.byClient[c].committed <==> a.ack || StaysCommitted(b, c, now)))
    // the client's own running binding stays where it is unless given up
    && (Holds(b, c, now) && !GivesUp(n, b, req) ==> c in b'.byClient && b'.byClient[c].ip == b.byClient[c].ip)
    && (GivesUp(n, b, req) ==> c !in b'.byClient && !a.Grant?)
  }

  /** A request that grants: one binding is new, and quarantines may be forgotten. */
  lemma GrantEffect(n: Net, b: Book, f: Book, b': Book, req: Message, ack: bool, l: Binding, now: int)
    requires ValidNet(n) && Sane(n, b) && Forgot(b, f, now) && Sane(n, b') && Rebound(f, b', ClientOf(req), l)
    requires Host(n, l.ip) && !Taken(b, l.ip, ClientOf(req), now) && !GivesUp(n, b, req)
    requires Holds(b, ClientOf(req), now) ==> l.ip == b.byClient[ClientOf(req)].ip
    requires l.committed <==> ack || StaysCommitted(b, ClientOf(req), now)
    requires l.expiry == now + HoldFor(n, l.committed)
    ensures Effect(n, b, b', req, Grant(ack, l.ip), now)
  {
    var c := ClientOf(req);
    forall d | d != c && Holds(b, d, now)
      ensures d in b'.byClient && b'.byClient[d] == b.byClient[d]
    {
      assert b.byClient[d].ip in b.byIP;
    }
  }

  /** A request that takes the client's binding away. */
  lemma ClearEffect(n: Net, b: Book, b': Book, req: Message, now: int)
    requires ValidNet(n) && Sane(n, b') && GivesUp(n, b, req)
    requires b'.byClient == b.byClient - {ClientOf(req)}
    ensures Effect(n, b, b', req, Silent, now)
  {
  }

  lemma NoEffect(n: Net, b: Book, b': Book, req: Message, a: Answer, now: int)
    requires ValidNet(n) && Sane(n, b') && b'.byClient == b.byClient && !GivesUp(n, b, req) && !a.Grant?
    ensures Effect(n, b, b', req, a, now)
  {
  }

  lemma OfferEffect(n: Net, b: Book, req: Message, now: int)
    requires ValidNet(n) && Sane(n, b) && IsType(req, DISCOVER)
    ensures var (b', a) := Decide(n, b, req, now); Effect(n, b, b', req, a, now)
  {
    var c := ClientOf(req);
    var asked := RequestedIP(req.options);
    var requested := if asked.Some? then asked.value else NoAddr;
    var f := Remembered(n, b, c, requested, now);
    var (b', r) := Offer(n, b, c, requested, now);
    OfferRebinds(n, b, c, requested, now);
    if r.Some? {
      var l := b'.byClient[c];
      ChoiceNotTaken(n, b, c, requested, now);
      GrantEffect(n, b, f, b', req, false, l, now);
    } else {
      NoEffect(n, b, b', req, Silent, now);
    }
  }

  lemma ChoiceNotTaken(n: Net, b: Book, c: Client, requested: Addr, now: int)
    requires ValidNet(n) && Sane(n, b) && Choice(n, b, c, requested, now).Some?
    ensures var ip := Choice(n, b, c, requested, now).value; Host(n, ip) && !Taken(b, ip, c, now)
  {
    if Holds(b, c, now) {
      assert b.byClient[c].ip in b.byIP;
    } else {
      ChoiceExact(n, b, c, requested, now);
    }
  }

  lemma CommitEffect(n: Net, b: Book, req: Message, ip: Addr, now: int)
    requires ValidNet(n) && Sane(n, b) && !GivesUp(n, b, req) && Bound(b, ClientOf(req), now) == Some(ip)
    ensures Effect(n, b, Commit(n, b, ClientOf(req), ip, now), req, Grant(true, ip), now)
  {
    assert ip in b.byIP;
    CommitSane(n, b, ClientOf(req), ip, now);
    GrantEffect(n, b, b, Commit(n, b, ClientOf(req), ip, now), req, true, Binding(ip, now + n.duration, true), now);
  }

  lemma RequestEffect(n: Net, b: Book, req: Message, now: int)
    requires ValidNet(n) && Sane(n, b) && IsType(req, REQUEST)
    ensures var (b', a) := DecideRequest(n, b, req, ClientOf(req), now); Effect(n, b, b', req, a, now)
  {
    var c := ClientOf(req);
    var (b', a) := DecideRequest(n, b, req, c, now);
    if a.Grant? {
      CommitEffect(n, b, req, a.ip, now);
    } else if GivesUp(n, b, req) {
      ClearSane(n, b, c);
      ClearEffect(n, b, b', req, now);
    } else {
      NoEffect(n, b, b', req, a, now);
    }
  }

  lemma ReleaseEffect(n: Net, b: Book, req: Message, now: int)
    requires ValidNet(n) && Sane(n, b) && IsType(req, RELEASE)
    ensures var (b', a) := Decide(n, b, req, now); Effect(n, b, b', req, a, now)
  {
    var c := ClientOf(req);
    var (b', a) := Decide(n, b, req, now);
    if GivesUp(n, b, req) {
      ClearSane(n, b, c);
      ClearEffect(n, b, b', req, now);
    } else {
      NoEffect(n, b, b', req, a, now);
    }
  }

  lemma DeclineEffect(n: Net, b: Book, req: Message, now: int)
    requires ValidNet(n) && Sane(n, b) && IsType(req, DECLINE)
    ensures var (b', a) := Decide(n, b, req, now); Effect(n, b, b', req, a, now)
  {
    var c := ClientOf(req);
    var (b', a) := Decide(n, b, req, now);
    if GivesUp(n, b, req) {
      DeclineSane(n, b, c, RequestedIP(req.options).value, now);
      ClearEffect(n, b, b', req, now);
    } else {
      NoEffect(n, b, b', req, a, now);
    }
  }

  /** The effect of any request on a book in order. */
  lemma RequestKeeps(n: Net, b: Book, req: Message, now: int)
    requires ValidNet(n) && Sane(n, b)
    ensures var (b', a) := Decide(n, b, req, now); Effect(n, b, b', req, a, now)
  {
    if IsType(req, DISCOVER) {
      OfferEffect(n, b, req, now);
    } else if IsType(req, REQUEST) {
      RequestEffect(n, b, req, now);
    } else if IsType(req, RELEASE) {
      ReleaseEffect(n, b, req, now);
    } else if IsType(req, DECLINE) {
      DeclineEffect(n, b, req, now);
    } else {
      NoEffect(n, b, b, req, Decide(n, b, req, now).1, now);
    }
  }
}
