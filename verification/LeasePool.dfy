/** The address allocator of one LAN subnet, as an object whose maps change in place. */
module LeasePool {
  import opened Wrappers
  import opened Addresses
  import opened LeaseBook

  class Pool {
    const net: Net
    var byClient: map<Client, Binding>
    var byIP: map<Addr, Client>
    var declined: map<Addr, int>

    ghost function View(): Book
      reads this
    {
      Book(byClient, byIP, declined)
    }

    ghost predicate Valid()
      reads this
    {
      ValidNet(net) && Sane(net, View())
    }

    /** The pool NewPool makes of a subnet it accepts. */
    constructor (n: Net)
      requires ValidNet(n)
      ensures net == n && View() == EMPTY && Valid()
    {
      net := n;
      byClient, byIP, declined := map[], map[], map[];
    }

    method ClearClient(c: Client)
      modifies this
      ensures View() == Clear(old(View()), c)
    {
      if c in byClient {
        byIP := byIP - {byClient[c].ip};
        byClient := byClient - {c};
      }
    }

    method HoldAddress(c: Client, ip: Addr, now: int, committed: bool)
      modifies this
      ensures View() == Hold(net, old(View()), c, ip, now, committed)
    {
      ClearClient(c);
      if ip in byIP {
        byClient := byClient - {byIP[ip]};
      }
      var dur := OFFER_HOLD_TIME;
      if committed {
        dur := net.duration;
      }
      byClient := byClient[c := Binding(ip, now + dur, committed)];
      byIP := byIP[ip := c];
    }

    /** Forgets an elapsed quarantine on the way. */
    method Allocatable(ip: Addr, now: int) returns (ok: bool)
      requires ValidNet(net)
      modifies this`declined
      ensures View() == Forget(old(View()), ip, now)
      ensures ok == Usable(net, old(View()), ip, now)
    {
      if ip in declined {
        if now < declined[ip] {
          return false;
        }
        declined := declined - {ip};
      }
      ContainsIsRange(net.base, net.bits, ip);
      ok := ip.Is4() && Contains(net.base, net.bits, ip)
      && ip.v4 != net.base && ip.v4 != Broadcast(net) && ip.v4 != net.server;
    }

    /** One turn of the scan that began on `b`. */
    method FreeNext(c: Client, now: int, v: U32, ghost b: Book) returns (free: bool)
      requires ValidNet(net) && net.base < v <= Broadcast(net) && View() == ForgetRange(b, net.base + 1, v - 1, now)
      modifies this`declined
      ensures View() == ForgetRange(b, net.base + 1, v, now)
      ensures free == Grantable(net, b, V4(v), c, now)
    {
      ScanStep(net, b, c, now, v);
      free := Allocatable(V4(v), now);
      free := free && Free(Book(byClient, byIP, declined), V4(v), c, now);
    }

    /** The scan: it ends at the end of the subnet. */
    method NextFree(c: Client, now: int) returns (r: Option<Addr>)
      requires ValidNet(net)
      modifies this`declined
      ensures var v := FirstFree(net, old(View()), c, now, net.base + 1);
              && View() == ForgetRange(old(View()), net.base + 1, if v.Some? then v.value else Broadcast(net), now)
              && r == if v.Some? then Some(V4(v.value)) else None
    {
      ghost var b := View();
      ghost var first := FirstFree(net, b, c, now, net.base + 1);
      var v := net.base + 1;
      assert View() == ForgetRange(b, net.base + 1, v - 1, now);
      while v <= Broadcast(net)
        invariant net.base < v <= Broadcast(net) + 1
        invariant View() == ForgetRange(b, net.base + 1, v - 1, now)
        invariant first == FirstFree(net, b, c, now, v)
        decreases Broadcast(net) + 1 - v
      {
        var free := FreeNext(c, now, v, b);
        if free {
          return Some(V4(v));
        }
        v := v + 1;
      }
      return None;
    }

    method Offer(c: Client, requested: Addr, now: int) returns (r: Option<Addr>)
      requires Valid()
      modifies this
      ensures Valid() && (View(), r) == LeaseBook.Offer(net, old(View()), c, requested, now)
    {
      OfferRebinds(net, View(), c, requested, now);
      r := PickAndHold(c, requested, now);
    }

    /** The body of Pool.Offer. */
    method PickAndHold(c: Client, requested: Addr, now: int) returns (r: Option<Addr>)
      requires ValidNet(net)
      modifies this
      ensures (View(), r) == LeaseBook.Offer(net, old(View()), c, requested, now)
    {
      var ok := false;
      if c in byClient && !Expired(byClient[c], now) {
        ok := Allocatable(byClient[c].ip, now);
      }
      if ok {
        var l := byClient[c];
        HoldAddress(c, l.ip, now, l.committed);
        return Some(l.ip);
      }
      ok := Allocatable(requested, now);
      if ok && Free(Book(byClient, byIP, declined), requested, c, now) {
        HoldAddress(c, requested, now, false);
        return Some(requested);
      }
      r := NextFree(c, now);
      if r.Some? {
        HoldAddress(c, r.value, now, false);
      }
    }

    /** Pool.Binding */
    method BoundTo(c: Client, now: int) returns (r: Option<Addr>)
      ensures r == Bound(View(), c, now)
    {
      if c !in byClient || Expired(byClient[c], now) {
        return None;
      }
      return Some(byClient[c].ip);
    }

    /** The caller has made sure, with BoundTo, that `ip` is what `c` holds. */
    method Commit(c: Client, ip: Addr, now: int)
      requires Valid() && Bound(View(), c, now) == Some(ip)
      modifies this
      ensures Valid() && View() == LeaseBook.Commit(net, old(View()), c, ip, now)
    {
      CommitSane(net, View(), c, ip, now);
      HoldAddress(c, ip, now, true);
    }

    method CancelOffer(c: Client)
      requires Valid()
      modifies this
      ensures Valid() && View() == LeaseBook.CancelOffer(old(View()), c)
    {
      ClearSane(net, View(), c);
      if c in byClient && !byClient[c].committed {
        ClearClient(c);
      }
    }

    method Release(c: Client, ip: Addr)
      requires Valid()
      modifies this
      ensures Valid() && View() == LeaseBook.Release(old(View()), c, ip)
    {
      ClearSane(net, View(), c);
      if ip in byIP && byIP[ip] == c {
        ClearClient(c);
      }
    }

    method Decline(c: Client, ip: Addr, now: int)
      requires Valid()
      modifies this
      ensures Valid() && View() == LeaseBook.Decline(old(View()), c, ip, now)
    {
      DeclineSane(net, View(), c, ip, now);
      if ip !in byIP || byIP[ip] != c {
        return;
      }
      declined := declined[ip := now + DECLINE_QUARANTINE];
      ClearClient(c);
    }

    /** Pool.Committed */
    method CommittedTo(c: Client, now: int) returns (r: Option<Lease>)
      ensures r == Committed(View(), c, now)
    {
      if c !in byClient || !byClient[c].committed || Expired(byClient[c], now) {
        return None;
      }
      return Some(Lease(byClient[c].ip, byClient[c].expiry));
    }

    /** Does not drop the binding of an expired owner of the address, so the two maps may part: see
        RestoreLeavesStale. */
    method Restore(c: Client, l: Lease, now: int) returns (ok: bool)
      requires ValidNet(net)
      modifies this
      ensures (View(), ok) == LeaseBook.Restore(net, old(View()), c, l, now)
    {
      if now >= l.expiry {
        return false;
      }
      ok := Allocatable(l.ip, now);
      if !ok || !Free(Book(byClient, byIP, declined), l.ip, c, now) {
        return false;
      }
      ClearClient(c);
      byClient := byClient[c := Binding(l.ip, l.expiry, true)];
      byIP := byIP[l.ip := c];
      return true;
    }
  }

  /** One turn of the scan. */
  lemma ScanStep(n: Net, b: Book, c: Client, now: int, v: int)
    requires ValidNet(n) && n.base < v <= Broadcast(n)
    ensures var before := ForgetRange(b, n.base + 1, v - 1, now);
            && Forget(before, V4(v), now) == ForgetRange(b, n.base + 1, v, now)
            && Usable(n, before, V4(v), now) == Usable(n, b, V4(v), now)
            && Free(ForgetRange(b, n.base + 1, v, now), V4(v), c, now) == Free(b, V4(v), c, now)
  {
    ForgetRangeForgot(b, n.base + 1, v - 1, now);
  }
}
