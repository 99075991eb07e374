/** What the lease table promises over any run of the server, through any crashes. */
module DhcpDurability {
  import opened Wrappers
  import opened Addresses
  import opened DhcpCodec
  import opened LeaseBook
  import opened DhcpHandler
  import opened LeaseStore
  import opened DhcpServer

  datatype Trace = Trace(states: seq<Srv>, steps: seq<Step>)

  ghost predicate Link(n: Net, tr: Trace, i: nat)
    requires ValidNet(n) && |tr.states| == |tr.steps| + 1 && i < |tr.steps|
  {
    Enabled(n, tr.states[i], tr.steps[i]) && tr.states[i + 1] == Next(n, tr.states[i], tr.steps[i])
  }

  /** A run of the server from an empty table. */
  ghost predicate IsTrace(n: Net, tr: Trace) {
    && ValidNet(n) && |tr.states| == |tr.steps| + 1
    && tr.states[0] == START.(clock := tr.states[0].clock)
    && forall i :: 0 <= i < |tr.steps| ==> Link(n, tr, i)
  }

  lemma {:induction false} Reachable(n: Net, tr: Trace, i: nat)
    requires IsTrace(n, tr) && i < |tr.states|
    ensures Inv(n, tr.states[i])
  {
    if i == 0 {
      StartInv(n, tr.states[0].clock);
    } else {
      var j := i - 1;
      Reachable(n, tr, j);
      assert Link(n, tr, j);
      InvStep(n, tr.states[j], tr.steps[j]);
    }
  }

  /** At every moment, a client has a lease running in the table exactly when that is its committed
      lease in the pool. */
  lemma TableIsBook(n: Net, tr: Trace, i: nat, c: Client, l: Lease)
    requires IsTrace(n, tr) && i < |tr.states| && c != []
    ensures var s := tr.states[i]; var t := Replay(s.log);
            Runs(t, c, s.clock) && t[c] == l <==> Committed(s.book, c, s.clock) == Some(l)
  {
    Reachable(n, tr, i);
    var s := tr.states[i];
    assert Committed(s.book, c, s.clock) == if Runs(Replay(s.log), c, s.clock) then Some(Replay(s.log)[c]) else None;
  }

  /** From any crash point, at any later time, the table can be restored in any order to one pool. */
  lemma RestartPossible(n: Net, tr: Trace, i: nat, k: nat, back: int)
    requires IsTrace(n, tr) && i < |tr.states| && k <= |tr.states[i].log| && tr.states[i].clock <= back
    ensures var t := Replay(tr.states[i].log[..k]);
            Apart(t, back) && forall c :: TakenBack(n, t, c, back) <==> Runs(t, c, back)
  {
    Reachable(n, tr, i);
    var t := Replay(tr.states[i].log[..k]);
    assert Tidy(n, t, tr.states[i].clock);
    Later(n, t, tr.states[i].book, tr.states[i].clock, back);
  }

  /** A reply that was sent was durable before; and from any crash point its lease comes back, of the
      same address and at least as long, unless it ran out or its client gave it up. */
  lemma AckedLeaseSurvives(n: Net, tr: Trace, i: nat, k: nat, back: int, b: Book, g: Granted)
    requires IsTrace(n, tr) && i < |tr.states| && Enabled(n, tr.states[i], Crash(k, back, b))
    requires g in tr.states[i].grants && g.sent
    ensures g.index < tr.states[i].durable && tr.states[i].log[g.index] == Put(g.client, g.lease)
    ensures !g.gone && back < g.lease.expiry ==>
              var l := Committed(b, g.client, back);
              l.Some? && l.value.ip == g.lease.ip && l.value.expiry >= g.lease.expiry
  {
    Reachable(n, tr, i);
    var s := tr.states[i];
    assert Backed(s, g);
    var t := Replay(s.log[..k]);
    if !g.gone && back < g.lease.expiry {
      assert Stands(t, g, s.clock);
      RestartPossible(n, tr, i, k, back);
      assert TakenBack(n, t, g.client, back);
    }
  }

  /** While a grant runs and its client has not given it up, its client holds its address. */
  lemma GrantHolds(n: Net, s: Srv, g: Granted, now: int)
    requires ValidNet(n) && Inv(n, s) && g in s.grants && !g.gone && s.clock <= now < g.lease.expiry
    ensures Holds(s.book, g.client, now) && s.book.byClient[g.client].ip == g.lease.ip
  {
    assert Backed(s, g);
    var t := Replay(s.log);
    assert s.log[..|s.log|] == s.log;
    assert Stands(t, g, s.clock);
    assert Committed(s.book, g.client, s.clock) == if Runs(t, g.client, s.clock) then Some(t[g.client]) else None;
  }

  /** No double allocation, through any crashes: an address in a grant that runs, and was not released or
      declined, goes to no other client. */
  lemma NeverRegranted(n: Net, tr: Trace, i: nat, g: Granted, req: Message, now: int)
    requires IsTrace(n, tr) && i < |tr.states| && g in tr.states[i].grants && !g.gone
    requires tr.states[i].clock <= now < g.lease.expiry && ClientOf(req) != g.client
    ensures var a := Decide(n, tr.states[i].book, req, now).1; a.Grant? ==> a.ip != g.lease.ip
  {
    Reachable(n, tr, i);
    var s := tr.states[i];
    GrantHolds(n, s, g, now);
    RequestKeeps(n, s.book, req, now);
    assert s.book.byIP[g.lease.ip] == g.client;
  }

  /** A grant counts as given up only through a release or decline by its own client. */
  lemma GoneByItsClient(n: Net, tr: Trace, i: nat, k: nat)
    requires IsTrace(n, tr) && i < |tr.steps| && tr.steps[i].Serve? && k < |tr.states[i].grants|
    ensures k < |tr.states[i + 1].grants|
    ensures tr.states[i + 1].grants[k].gone && !tr.states[i].grants[k].gone ==>
              var req := tr.steps[i].req;
              ClientOf(req) == tr.states[i].grants[k].client && (IsType(req, RELEASE) || IsType(req, DECLINE))
  {
    assert Link(n, tr, i);
    var s, req := tr.states[i], tr.steps[i].req;
    if Surrenders(n, s.book, req) {
      SurrenderedByItsClient(n, s.book, req);
    }
  }

  // ---------------------------------------------------------------- replies that are not held

  /** The request granted its client a committed lease. */
  ghost predicate GrantsLease(n: Net, b: Book, b': Book, req: Message, a: Answer, now: int)
    requires ValidNet(n)
  {
    Effect(n, b, b', req, a, now) && a.Grant? && b'.byClient[ClientOf(req)].committed
  }

  predicate Waits(b: Book, b': Book, c: Client, later: int) {
    Keep(b, b', c, later).Some? && Keep(b, b', c, later).value.Put?
  }

  /** A reply granting a committed lease leaves without waiting for a write exactly for a client without
      identity, for a lease already over when the clock is read again, and for a lease the same as
      before. */
  lemma GrantWaitsExactly(n: Net, b: Book, b': Book, req: Message, a: Answer, now: int, later: int)
    requires ValidNet(n) && now <= later && GrantsLease(n, b, b', req, a, now)
    ensures var c := ClientOf(req);
            !Waits(b, b', c, later)
            <==> || c == []
                 || later >= now + n.duration
                 || (c in b.byClient && b.byClient[c] == Binding(a.ip, now + n.duration, true))
  {
  }

  /** With a clock that always advances, only the first two: every other reply that grants a committed
      lease is held, and its lease written. */
  lemma GrantWaits(n: Net, tr: Trace, i: nat, req: Message, now: int, later: int, b': Book, a: Answer)
    requires IsTrace(n, tr) && i < |tr.states| && Enabled(n, tr.states[i], Serve(req, now, later))
    requires (b', a) == Decide(n, tr.states[i].book, req, now) && GrantsLease(n, tr.states[i].book, b', req, a, now)
    requires ClientOf(req) != [] && later < now + n.duration
    ensures var s' := ServeNext(n, tr.states[i], req, now, later);
            var l := Lease(a.ip, now + n.duration);
            && s'.log == tr.states[i].log + [Put(ClientOf(req), l)]
            && Granted(|tr.states[i].log|, ClientOf(req), l, false, false) in s'.grants
  {
    Reachable(n, tr, i);
    var s := tr.states[i];
    NotYet(n, s, ClientOf(req), now, a.ip);
    GrantWaitsExactly(n, s.book, b', req, a, now, later);
    PutIsGrant(n, s.book, b', req, a, now, later);
    HeldGrant(n, s, req, now, later, b', a);
  }

  lemma HeldGrant(n: Net, s: Srv, req: Message, now: int, later: int, b': Book, a: Answer)
    requires ValidNet(n) && (b', a) == Decide(n, s.book, req, now) && a.Grant? && Waits(s.book, b', ClientOf(req), later)
    ensures var s' := ServeNext(n, s, req, now, later);
            var l := Keep(s.book, b', ClientOf(req), later).value.lease;
            && s'.log == s.log + [Put(ClientOf(req), l)]
            && Granted(|s.log|, ClientOf(req), l, false, false) in s'.grants
  {
    var s' := ServeNext(n, s, req, now, later);
    assert s'.grants[|s'.grants| - 1] in s'.grants;
  }

  /** No lease given before `now` ends when one given at `now` would. */
  lemma NotYet(n: Net, s: Srv, c: Client, now: int, ip: Addr)
    requires ValidNet(n) && Inv(n, s) && s.clock < now && c != [] && n.duration > 0
    ensures !(c in s.book.byClient && s.book.byClient[c] == Binding(ip, now + n.duration, true))
  {
    var t := Replay(s.log);
    assert s.log[..|s.log|] == s.log;
    assert Tidy(n, t, s.clock);
    assert Committed(s.book, c, s.clock) == if Runs(t, c, s.clock) then Some(t[c]) else None;
  }

  /** A REQUEST granted once is granted again while its client holds the address. */
  lemma RequestRepeats(n: Net, b: Book, b1: Book, req: Message, now: int)
    requires ValidNet(n) && IsType(req, REQUEST)
    requires var a := Decide(n, b, req, now).1; a.Grant? && Bound(b1, ClientOf(req), now) == Some(a.ip)
    ensures Decide(n, b1, req, now).1 == Decide(n, b, req, now).1
  {
  }

  /** Without that, not: a REQUEST repeated at one instant is answered at once, whether or not the
      write of the first is on disk. */
  lemma RepeatLeavesAtOnce(n: Net, b: Book, req: Message, now: int, later: int, b1: Book, a: Answer)
    requires ValidNet(n) && Sane(n, b) && now <= later && n.duration > 0
    requires IsType(req, REQUEST) && (b1, a) == Decide(n, b, req, now) && a.Grant?
    ensures var (b2, a2) := Decide(n, b1, req, now);
            a2 == a && !Waits(b1, b2, ClientOf(req), later)
  {
    var c := ClientOf(req);
    RequestKeeps(n, b, req, now);
    RequestRepeats(n, b, b1, req, now);
    var (b2, a2) := Decide(n, b1, req, now);
    RequestKeeps(n, b1, req, now);
    GrantWaitsExactly(n, b1, b2, req, a2, now, later);
  }
}
