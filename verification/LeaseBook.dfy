/** The DHCPv4 address pool as values: what each operation of the pool does to its three maps, and
    what every one of them keeps. */
module LeaseBook {
  import opened Wrappers
  import opened Addresses
  import opened ByteFields
  import opened Powers

  const SECOND := 1_000_000_000
  const OFFER_HOLD_TIME := 60 * SECOND
  const DECLINE_QUARANTINE := 3600 * SECOND

  type Client = Bytes

  // ---------------------------------------------------------------- the subnet

  /** A netip.Prefix; one whose length does not fit its address is invalid. */
  datatype Prefix = Prefix(ip: Addr, bits: int)

  function Size(bits: int): (r: nat)
    requires 0 <= bits <= 32
    ensures r >= 1
  {
    Pow2(32 - bits)
  }

  /** The serving subnet of one pool, already masked. */
  datatype Net = Net(base: U32, bits: int, server: U32, duration: int)

  predicate ValidNet(n: Net) {
    && 1 <= n.bits <= 30
    && n.base % Size(n.bits) == 0
    && n.base + Size(n.bits) <= 0x1_0000_0000
    && n.base <= n.server < n.base + Size(n.bits)
  }

  /** Prefix.Contains for IPv4: the leading bits agree. */
  predicate Contains(base: U32, bits: int, ip: Addr)
    requires 0 <= bits <= 32
  {
    ip.V4? && ip.v4 / Size(bits) == base / Size(bits)
  }

  function Broadcast(n: Net): (r: int)
    requires ValidNet(n)
    ensures n.base + 3 <= r < 0x1_0000_0000
  {
    Pow2Least(32 - n.bits);
    n.base + Size(n.bits) - 1
  }

  /** NewPool: a subnet with host addresses, holding the server's. */
  function NewNet(subnet: Prefix, server: Addr, duration: int): (r: Option<Net>)
    ensures r.Some? ==>
              && ValidNet(r.value) && r.value.duration == duration && server == V4(r.value.server)
              && Contains(r.value.base, r.value.bits, subnet.ip) && r.value.bits == subnet.bits
    ensures r.Some? <==> subnet.ip.V4? && 1 <= subnet.bits <= 30 && Contains(subnet.ip.v4, subnet.bits, server)
  {
    if !subnet.ip.V4? || !(1 <= subnet.bits <= 30) then None
    else
      var size := Size(subnet.bits);
      var base := subnet.ip.v4 - subnet.ip.v4 % size;
      MaskedFits(subnet.ip.v4, subnet.bits);
      ContainsIsRange(base, subnet.bits, subnet.ip);
      if !Contains(base, subnet.bits, server) then None
      else
        ContainsIsRange(base, subnet.bits, server);
        Some(Net(base, subnet.bits, server.v4, duration))
  }

  lemma MaskedFits(v: U32, bits: int)
    requires 0 <= bits <= 32
    ensures var size := Size(bits); var base := v - v % size;
            0 <= base <= v < base + size && base % size == 0 && base + size <= 0x1_0000_0000
  {
    var size := Size(bits);
    Pow2Divides(32 - bits, 32);
    assert Pow2(32) == 0x1_0000_0000 by { Pow2At32(); }
    Masked(v, Pow2(bits), size);
  }

  /** For a masked subnet, the prefix test is a range test. */
  lemma ContainsIsRange(base: U32, bits: int, ip: Addr)
    requires 0 <= bits <= 32 && base % Size(bits) == 0
    ensures Contains(base, bits, ip) <==> ip.V4? && base <= ip.v4 < base + Size(bits)
  {
    if ip.V4? {
      SameQuotient(ip.v4, base, Size(bits));
    }
  }

  /** An address the pool may hand out, quarantine aside. */
  predicate Host(n: Net, ip: Addr)
    requires ValidNet(n)
  {
    ip.V4? && n.base < ip.v4 < Broadcast(n) && ip.v4 != n.server
  }

  // ---------------------------------------------------------------- the book

  datatype Binding = Binding(ip: Addr, expiry: int, committed: bool)

  /** The pool's maps. */
  datatype Book = Book(byClient: map<Client, Binding>, byIP: map<Addr, Client>, declined: map<Addr, int>)

  const EMPTY := Book(map[], map[], map[])

  /** The two indexes are inverses of each other. */
  ghost predicate Inverse(b: Book) {
    && (forall c :: c in b.byClient ==> b.byClient[c].ip in b.byIP && b.byIP[b.byClient[c].ip] == c)
    && (forall ip :: ip in b.byIP ==> b.byIP[ip] in b.byClient && b.byClient[b.byIP[ip]].ip == ip)
  }

  /** ... and hold only addresses to hand out, none of them quarantined. */
  ghost predicate Sane(n: Net, b: Book)
    requires ValidNet(n)
  {
    Inverse(b) && forall ip :: ip in b.byIP ==> Host(n, ip) && ip !in b.declined
  }

  predicate Expired(l: Binding, now: int) { now >= l.expiry }

  /** `c` holds a binding that has not expired. */
  predicate Holds(b: Book, c: Client, now: int) {
    c in b.byClient && !Expired(b.byClient[c], now)
  }

  predicate Quarantined(b: Book, ip: Addr, now: int) {
    ip in b.declined && now < b.declined[ip]
  }

  /** What allocatable answers. */
  predicate Usable(n: Net, b: Book, ip: Addr, now: int)
    requires ValidNet(n)
  {
    !Quarantined(b, ip, now) && Host(n, ip)
  }

  /** What allocatable forgets: an elapsed quarantine. */
  function Forget(b: Book, ip: Addr, now: int): Book {
    if ip in b.declined && now >= b.declined[ip] then b.(declined := b.declined - {ip}) else b
  }

  /** isFree */
  predicate Free(b: Book, ip: Addr, c: Client, now: int) {
    || ip !in b.byIP
    || b.byIP[ip] == c
    || b.byIP[ip] !in b.byClient
    || Expired(b.byClient[b.byIP[ip]], now)
  }

  predicate Grantable(n: Net, b: Book, ip: Addr, c: Client, now: int)
    requires ValidNet(n)
  {
    Usable(n, b, ip, now) && Free(b, ip, c, now)
  }

  /** clear */
  function Clear(b: Book, c: Client): Book {
    if c in b.byClient then b.(byClient := b.byClient - {c}, byIP := b.byIP - {b.byClient[c].ip}) else b
  }

  function HoldFor(n: Net, committed: bool): int {
    if committed then n.duration else OFFER_HOLD_TIME
  }

  /** hold */
  function Hold(n: Net, b: Book, c: Client, ip: Addr, now: int, committed: bool): Book {
    var b1 := Clear(b, c);
    var b2 := if ip in b1.byIP then b1.(byClient := b1.byClient - {b1.byIP[ip]}) else b1;
    b2.(byClient := b2.byClient[c := Binding(ip, now + HoldFor(n, committed), committed)], byIP := b2.byIP[ip := c])
  }

  /** The lowest grantable address from `v` up. */
  function FirstFree(n: Net, b: Book, c: Client, now: int, v: int): (r: Option<U32>)
    requires ValidNet(n) && n.base < v <= Broadcast(n) + 1
    ensures r.Some? ==> v <= r.value < Broadcast(n) && Grantable(n, b, V4(r.value), c, now)
    decreases Broadcast(n) + 1 - v
  {
    if v > Broadcast(n) then None
    else if Grantable(n, b, V4(v), c, now) then Some(v)
    else FirstFree(n, b, c, now, v + 1)
  }

  /** Nothing below it, from `v` up, can be granted. */
  lemma {:induction false} FirstFreeIsLowest(n: Net, b: Book, c: Client, now: int, v: int, w: U32)
    requires ValidNet(n) && n.base < v <= w && v <= Broadcast(n) + 1 && Grantable(n, b, V4(w), c, now)
    ensures var r := FirstFree(n, b, c, now, v); r.Some? && r.value <= w
    decreases Broadcast(n) + 1 - v
  {
    if v <= Broadcast(n) && !Grantable(n, b, V4(v), c, now) {
      FirstFreeIsLowest(n, b, c, now, v + 1, w);
    }
  }

  /** `b'` is `b` with some elapsed quarantines forgotten. */
  ghost predicate Forgot(b: Book, b': Book, now: int) {
    && b'.byClient == b.byClient && b'.byIP == b.byIP
    && (forall ip :: ip in b'.declined ==> ip in b.declined && b'.declined[ip] == b.declined[ip])
    && (forall ip :: ip in b.declined && ip !in b'.declined ==> now >= b.declined[ip])
  }

  /** The quarantines the scan forgets: those elapsed among the addresses it passes. */
  function ForgetRange(b: Book, lo: U32, hi: int, now: int): Book
    requires hi < 0x1_0000_0000
    decreases hi
  {
    if hi < lo then b else Forget(ForgetRange(b, lo, hi - 1, now), V4(hi), now)
  }

  lemma {:induction false} ForgetRangeForgot(b: Book, lo: U32, hi: int, now: int)
    requires hi < 0x1_0000_0000
    ensures Forgot(b, ForgetRange(b, lo, hi, now), now)
    decreases hi
  {
    if hi >= lo {
      ForgetRangeForgot(b, lo, hi - 1, now);
    }
  }

  /** Offer */
  function Offer(n: Net, b: Book, c: Client, requested: Addr, now: int): (Book, Option<Addr>)
    requires ValidNet(n)
  {
    var b0 := if Holds(b, c, now) then Forget(b, b.byClient[c].ip, now) else b;
    if Holds(b, c, now) && Usable(n, b, b.byClient[c].ip, now) then
      var l := b.byClient[c];
      (Hold(n, b0, c, l.ip, now, l.committed), Some(l.ip))
    else
      var b1 := Forget(b0, requested, now);
      if Grantable(n, b0, requested, c, now) then
        (Hold(n, b1, c, requested, now, false), Some(requested))
      else
        match FirstFree(n, b1, c, now, n.base + 1)
        case None => (ForgetRange(b1, n.base + 1, Broadcast(n), now), None)
        case Some(v) => (Hold(n, ForgetRange(b1, n.base + 1, v, now), c, V4(v), now, false), Some(V4(v)))
  }

  /** Binding */
  function Bound(b: Book, c: Client, now: int): Option<Addr> {
    if Holds(b, c, now) then Some(b.byClient[c].ip) else None
  }

  /** Commit */
  function Commit(n: Net, b: Book, c: Client, ip: Addr, now: int): Book {
    Hold(n, b, c, ip, now, true)
  }

  /** CancelOffer */
  function CancelOffer(b: Book, c: Client): Book {
    if c in b.byClient && !b.byClient[c].committed then Clear(b, c) else b
  }

  /** Release */
  function Release(b: Book, c: Client, ip: Addr): Book {
    if ip in b.byIP && b.byIP[ip] == c then Clear(b, c) else b
  }

  /** Decline */
  function Decline(b: Book, c: Client, ip: Addr, now: int): Book {
    if ip in b.byIP && b.byIP[ip] == c
    then Clear(b.(declined := b.declined[ip := now + DECLINE_QUARANTINE]), c)
    else b
  }

  datatype Lease = Lease(ip: Addr, expiry: int)

  /** Committed */
  function Committed(b: Book, c: Client, now: int): Option<Lease> {
    if Holds(b, c, now) && b.byClient[c].committed
    then Some(Lease(b.byClient[c].ip, b.byClient[c].expiry))
    else None
  }

  /** Restore */
  function Restore(n: Net, b: Book, c: Client, l: Lease, now: int): (Book, bool)
    requires ValidNet(n)
  {
    if now >= l.expiry then (b, false)
    else
      var b0 := Forget(b, l.ip, now);
      if !Grantable(n, b, l.ip, c, now) then (b0, false)
      else
        var b1 := Clear(b0, c);
        (b1.(byClient := b1.byClient[c := Binding(l.ip, l.expiry, true)], byIP := b1.byIP[l.ip := c]), true)
  }

  // ---------------------------------------------------------------- what the operations keep

  lemma ClearSane(n: Net, b: Book, c: Client)
    requires ValidNet(n) && Sane(n, b)
    ensures Sane(n, Clear(b, c)) && c !in Clear(b, c).byClient
    ensures forall d :: d != c ==> (d in Clear(b, c).byClient <==> d in b.byClient)
    ensures forall d :: d != c && d in b.byClient ==> Clear(b, c).byClient[d] == b.byClient[d]
    ensures c in b.byClient ==> b.byClient[c].ip !in Clear(b, c).byIP
  {
  }

  /** `b'` is `b` with the one binding `l` for `c`, in place of any other of `c` or of its address. */
  ghost predicate Rebound(b: Book, b': Book, c: Client, l: Binding) {
    && c in b'.byClient && b'.byClient[c] == l
    && l.ip in b'.byIP && b'.byIP[l.ip] == c
    && (forall d :: d != c ==> (d in b'.byClient <==> d in b.byClient && b.byClient[d].ip != l.ip))
    && (forall d :: d != c && d in b'.byClient ==> b'.byClient[d] == b.byClient[d])
    && (forall ip :: ip != l.ip ==> (ip in b'.byIP <==> ip in b.byIP && b.byIP[ip] != c))
    && (forall ip :: ip != l.ip && ip in b'.byIP ==> b'.byIP[ip] == b.byIP[ip])
    && b'.declined == b.declined
  }

  lemma HoldRebinds(n: Net, b: Book, c: Client, ip: Addr, now: int, committed: bool)
    requires Inverse(b)
    ensures Rebound(b, Hold(n, b, c, ip, now, committed), c, Binding(ip, now + HoldFor(n, committed), committed))
  {
  }

  lemma ReboundSane(n: Net, b: Book, b': Book, c: Client, l: Binding)
    requires ValidNet(n) && Sane(n, b) && Rebound(b, b', c, l) && Host(n, l.ip) && l.ip !in b.declined
    ensures Sane(n, b')
  {
  }

  /** Granting keeps the book in order. */
  lemma HoldSane(n: Net, b: Book, c: Client, ip: Addr, now: int, committed: bool)
    requires ValidNet(n) && Sane(n, b) && Host(n, ip) && ip !in b.declined
    ensures Sane(n, Hold(n, b, c, ip, now, committed))
  {
    HoldRebinds(n, b, c, ip, now, committed);
    ReboundSane(n, b, Hold(n, b, c, ip, now, committed), c, Binding(ip, now + HoldFor(n, committed), committed));
  }

  // ---------------------------------------------------------------- Offer

  lemma ForgotGrantable(n: Net, b: Book, b': Book, now: int)
    requires ValidNet(n) && Forgot(b, b', now)
    ensures forall ip, c :: Grantable(n, b', ip, c, now) == Grantable(n, b, ip, c, now)
  {
  }

  lemma ForgotFirstFree(n: Net, b: Book, b': Book, c: Client, now: int, v: int)
    requires ValidNet(n) && Forgot(b, b', now) && n.base < v <= Broadcast(n) + 1
    ensures FirstFree(n, b', c, now, v) == FirstFree(n, b, c, now, v)
  {
    ForgotGrantable(n, b, b', now);
    var r, r' := FirstFree(n, b, c, now, v), FirstFree(n, b', c, now, v);
    if r.Some? {
      FirstFreeIsLowest(n, b', c, now, v, r.value);
    }
    if r'.Some? {
      FirstFreeIsLowest(n, b, c, now, v, r'.value);
    }
  }

  /** The address Offer promises: the one held, else the one asked for, else the lowest to be had. */
  function Choice(n: Net, b: Book, c: Client, requested: Addr, now: int): Option<Addr>
    requires ValidNet(n)
  {
    if Holds(b, c, now) then Some(b.byClient[c].ip)
    else if Grantable(n, b, requested, c, now) then Some(requested)
    else match FirstFree(n, b, c, now, n.base + 1)
         case None => None
         case Some(v) => Some(V4(v))
  }

  predicate StaysCommitted(b: Book, c: Client, now: int) {
    Holds(b, c, now) && b.byClient[c].committed
  }

  /** The quarantines left after an Offer. */
  function Remembered(n: Net, b: Book, c: Client, requested: Addr, now: int): Book
    requires ValidNet(n)
  {
    if Holds(b, c, now) then b
    else if Grantable(n, b, requested, c, now) then Forget(b, requested, now)
    else
      var v := FirstFree(n, b, c, now, n.base + 1);
      ForgetRange(Forget(b, requested, now), n.base + 1, if v.Some? then v.value else Broadcast(n), now)
  }

  lemma RememberedForgot(n: Net, b: Book, c: Client, requested: Addr, now: int)
    requires ValidNet(n) && Sane(n, b)
    ensures var f := Remembered(n, b, c, requested, now); Forgot(b, f, now) && Sane(n, f)
  {
    var v := FirstFree(n, b, c, now, n.base + 1);
    ForgetRangeForgot(Forget(b, requested, now), n.base + 1, if v.Some? then v.value else Broadcast(n), now);
  }

  lemma ChoiceFits(n: Net, b: Book, c: Client, requested: Addr, now: int)
    requires ValidNet(n) && Sane(n, b) && Choice(n, b, c, requested, now).Some?
    ensures var ip := Choice(n, b, c, requested, now).value;
            && Host(n, ip) && Free(b, ip, c, now)
            && ip !in Remembered(n, b, c, requested, now).declined
  {
    if Holds(b, c, now) {
      assert b.byClient[c].ip in b.byIP;
    } else if !Grantable(n, b, requested, c, now) {
      var v := FirstFree(n, b, c, now, n.base + 1).value;
      ForgetRangeForgot(Forget(b, requested, now), n.base + 1, v - 1, now);
    }
  }

  lemma OfferKeeps(n: Net, b: Book, c: Client, requested: Addr, now: int)
    requires ValidNet(n) && Sane(n, b) && Holds(b, c, now)
    ensures var l := b.byClient[c]; Offer(n, b, c, requested, now) == (Hold(n, b, c, l.ip, now, l.committed), Some(l.ip))
  {
    assert b.byClient[c].ip in b.byIP;
  }

  /** Offer, step by step as the pool does it, comes to granting its choice. */
  lemma OfferIs(n: Net, b: Book, c: Client, requested: Addr, now: int)
    requires ValidNet(n) && Sane(n, b)
    ensures var f := Remembered(n, b, c, requested, now);
            Offer(n, b, c, requested, now)
            == match Choice(n, b, c, requested, now)
               case None => (f, None)
               case Some(ip) => (Hold(n, f, c, ip, now, StaysCommitted(b, c, now)), Some(ip))
  {
    if Holds(b, c, now) {
      OfferKeeps(n, b, c, requested, now);
    } else {
      ForgotFirstFree(n, b, Forget(b, requested, now), c, now, n.base + 1);
    }
  }

  /** Offer forgets elapsed quarantines, grants its choice and changes nothing else. */
  lemma OfferRebinds(n: Net, b: Book, c: Client, requested: Addr, now: int)
    requires ValidNet(n) && Sane(n, b)
    ensures var f := Remembered(n, b, c, requested, now);
            var (b', r) := Offer(n, b, c, requested, now);
            && Forgot(b, f, now) && Sane(n, f) && Sane(n, b')
            && r == Choice(n, b, c, requested, now)
            && (r.None? ==> b' == f)
            && (r.Some? ==>
                  Rebound(f, b', c, Binding(r.value, now + HoldFor(n, StaysCommitted(b, c, now)), StaysCommitted(b, c, now))))
  {
    var f := Remembered(n, b, c, requested, now);
    RememberedForgot(n, b, c, requested, now);
    OfferIs(n, b, c, requested, now);
    var r := Choice(n, b, c, requested, now);
    if r.Some? {
      ChoiceFits(n, b, c, requested, now);
      HoldRebinds(n, f, c, r.value, now, StaysCommitted(b, c, now));
      HoldSane(n, f, c, r.value, now, StaysCommitted(b, c, now));
    }
  }

  /** Taken for `c`: quarantined, or held by another client whose lease runs. */
  predicate Taken(b: Book, ip: Addr, c: Client, now: int) {
    || Quarantined(b, ip, now)
    || (ip in b.byIP && b.byIP[ip] != c && Holds(b, b.byIP[ip], now))
  }

  lemma ChoiceExact(n: Net, b: Book, c: Client, requested: Addr, now: int)
    requires ValidNet(n) && Sane(n, b) && !Holds(b, c, now)
    ensures var r := Choice(n, b, c, requested, now);
            && (Host(n, requested) && !Taken(b, requested, c, now) ==> r == Some(requested))
            && (!(Host(n, requested) && !Taken(b, requested, c, now)) && r.Some? ==>
                  && Host(n, r.value) && !Taken(b, r.value, c, now)
                  && forall ip :: Host(n, ip) && !Taken(b, ip, c, now) ==> r.value.v4 <= ip.v4)
            && (r.None? <==> forall ip :: Host(n, ip) ==> Taken(b, ip, c, now))
  {
    forall ip
      ensures Grantable(n, b, ip, c, now) <==> Host(n, ip) && !Taken(b, ip, c, now)
    {
    }
    if !Grantable(n, b, requested, c, now) {
      var v := FirstFree(n, b, c, now, n.base + 1);
      forall ip | Host(n, ip) && !Taken(b, ip, c, now)
        ensures v.Some? && v.value <= ip.v4
      {
        FirstFreeIsLowest(n, b, c, now, n.base + 1, ip.v4);
      }
    }
  }

  /** Offer is exact: a client keeps the address it holds; else it gets the one it asks for if that can
      be had; else the lowest that can; and it gets none exactly when every host address is taken. */
  lemma OfferExact(n: Net, b: Book, c: Client, requested: Addr, now: int, r: Option<Addr>)
    requires ValidNet(n) && Sane(n, b) && r == Offer(n, b, c, requested, now).1
    ensures Holds(b, c, now) ==> r == Some(b.byClient[c].ip)
    ensures !Holds(b, c, now) && Host(n, requested) && !Taken(b, requested, c, now) ==> r == Some(requested)
    ensures !Holds(b, c, now) && !(Host(n, requested) && !Taken(b, requested, c, now)) && r.Some? ==>
              && Host(n, r.value) && !Taken(b, r.value, c, now)
              && forall ip :: Host(n, ip) && !Taken(b, ip, c, now) ==> r.value.v4 <= ip.v4
    ensures r.None? <==> !Holds(b, c, now) && forall ip :: Host(n, ip) ==> Taken(b, ip, c, now)
  {
    OfferRebinds(n, b, c, requested, now);
    if !Holds(b, c, now) {
      ChoiceExact(n, b, c, requested, now);
    }
  }

  lemma DeclineSane(n: Net, b: Book, c: Client, ip: Addr, now: int)
    requires ValidNet(n) && Sane(n, b)
    ensures Sane(n, Decline(b, c, ip, now))
  {
  }

  lemma CommitSane(n: Net, b: Book, c: Client, ip: Addr, now: int)
    requires ValidNet(n) && Sane(n, b) && Bound(b, c, now) == Some(ip)
    ensures Sane(n, Commit(n, b, c, ip, now))
    ensures Rebound(b, Commit(n, b, c, ip, now), c, Binding(ip, now + n.duration, true))
  {
    assert ip in b.byIP;
    HoldRebinds(n, b, c, ip, now, true);
    HoldSane(n, b, c, ip, now, true);
  }

  /** Restoring keeps the book in order exactly when the address has no other owner, not even one
      whose lease has expired. */
  lemma RestoreLeavesStale(n: Net, b: Book, c: Client, l: Lease, now: int)
    requires ValidNet(n) && Sane(n, b)
    ensures var (b', ok) := Restore(n, b, c, l, now);
            Sane(n, b') <==> !ok || l.ip !in b.byIP || b.byIP[l.ip] == c
  {
    var (b', ok) := Restore(n, b, c, l, now);
    var b0 := Forget(b, l.ip, now);
    if ok {
      if l.ip !in b.byIP || b.byIP[l.ip] == c {
        assert Rebound(b0, b', c, Binding(l.ip, l.expiry, true));
        ReboundSane(n, b0, b', c, Binding(l.ip, l.expiry, true));
      } else {
        var d := b.byIP[l.ip];
        assert d in b'.byClient && b'.byClient[d].ip == l.ip && b'.byIP[l.ip] == c;
      }
    }
  }

  /** Such a case: the address of an expired lease restored to another client stays with both. */
  lemma StaleOwner(now: int)
    ensures var n := Net(0x0a00_0000, 24, 0x0a00_0001, 3600 * SECOND);
            var ip := V4(0x0a00_0002);
            var b := Book(map[[1] := Binding(ip, now, true)], map[ip := [1]], map[]);
            var (b', ok) := Restore(n, b, [2], Lease(ip, now + 1), now);
            && ValidNet(n) && Sane(n, b) && ok && !Sane(n, b')
            && b'.byClient[[1]].ip == b'.byClient[[2]].ip == ip && b'.byIP[ip] == [2]
  {
    assert Pow2(8) == 0x100;
    var n := Net(0x0a00_0000, 24, 0x0a00_0001, 3600 * SECOND);
    var ip := V4(0x0a00_0002);
    var b := Book(map[[1] := Binding(ip, now, true)], map[ip := [1]], map[]);
    assert Host(n, ip);
    assert Sane(n, b);
    RestoreLeavesStale(n, b, [2], Lease(ip, now + 1), now);
  }
}
