/** The DHCPv4 server of one interface with its lease table: requests, replies held until their lease
    is on disk, the sweep of expired leases, crashes and restarts. */
module DhcpServer {
  import opened Wrappers
  import opened DhcpCodec
  import opened LeaseBook
  import opened DhcpHandler
  import opened LeaseStore

  /** keep: what to write of a request that took the book from `b` to `b'`. */
  function Keep(b: Book, b': Book, c: Client, now: int): Option<Op> {
    if c == [] then None
    else
      var was, has := Committed(b, c, now), Committed(b', c, now);
      if has.Some? && has != was then Some(Put(c, has.value))
      else if was.Some? && has.None? then Some(Delete(c))
      else None
  }

  /** A lease granted by a reply that was held for it: where its write is in the log, whether the reply
      has left, and whether the client has given the lease up since. */
  datatype Granted = Granted(index: nat, client: Client, lease: Lease, sent: bool, gone: bool)

  /** `durable` writes of `log` are on disk; `clock` is the last reading. */
  datatype Srv = Srv(book: Book, log: seq<Op>, durable: nat, grants: seq<Granted>, clock: int)

  datatype Step =
    | Serve(req: Message, now: int, later: int)  // one request, read at `now`; keep reads the clock again
    | Sync(upTo: nat)                            // more of the log is on disk
    | Send(i: nat)                               // a held reply leaves
    | Sweep(at: int)
    | Crash(kept: nat, back: int, restored: Book)  // a prefix survives, on disk or still to be; restored at `back`
    | Drop(client: Client)                       // restore deletes a lease the pool did not take

  ghost predicate Enabled(n: Net, s: Srv, step: Step)
    requires ValidNet(n)
  {
    match step
    case Serve(_, now, later) => s.clock < now <= later
    case Sync(k) => s.durable <= k <= |s.log|
    case Send(i) => i < |s.grants| && s.grants[i].index < s.durable
    case Sweep(at) => s.clock <= at
    case Crash(k, back, b) =>
      && s.durable <= k <= |s.log| && s.clock <= back
      && Restored(n, Replay(s.log[..k]), Replay(s.log[..k]).Keys, back, b)
    case Drop(c) => c in Replay(s.log) && !Runs(Replay(s.log), c, s.clock)
  }

  function GiveUp(grants: seq<Granted>, c: Client): (r: seq<Granted>)
    ensures |r| == |grants|
    ensures forall i :: 0 <= i < |r| ==>
              r[i] == if grants[i].client == c then grants[i].(gone := true) else grants[i]
  {
    seq(|grants|, i requires 0 <= i < |grants| => if grants[i].client == c then grants[i].(gone := true) else grants[i])
  }

  /** The replies still to come after a crash are lost with the process; what was sent stays sent. */
  function Survivors(grants: seq<Granted>, k: nat): (r: seq<Granted>)
    ensures forall g :: g in r <==> g in grants && g.index < k
  {
    if grants == [] then []
    else (if grants[0].index < k then [grants[0]] else []) + Survivors(grants[1..], k)
  }

  /** The client gives a committed lease up: it releases or declines it. */
  predicate Surrenders(n: Net, b: Book, req: Message) {
    GivesUp(n, b, req) && b.byClient[ClientOf(req)].committed
  }

  lemma SurrenderedByItsClient(n: Net, b: Book, req: Message)
    requires Surrenders(n, b, req)
    ensures IsType(req, RELEASE) || IsType(req, DECLINE)
  {
  }

  function ServeNext(n: Net, s: Srv, req: Message, now: int, later: int): Srv
    requires ValidNet(n)
  {
    var c := ClientOf(req);
    var (b', a) := Decide(n, s.book, req, now);
    var op := Keep(s.book, b', c, later);
    var grants := if Surrenders(n, s.book, req) then GiveUp(s.grants, c) else s.grants;
    Srv(b', if op.Some? then s.log + [op.value] else s.log, s.durable,
        if op.Some? && op.value.Put? && a != Silent
        then grants + [Granted(|s.log|, c, op.value.lease, false, false)] else grants,
        later)
  }

  function Next(n: Net, s: Srv, step: Step): Srv
    requires ValidNet(n)
  {
    match step
    case Serve(req, now, later) => ServeNext(n, s, req, now, later)
    case Sync(k) => s.(durable := k)
    case Send(i) => if i < |s.grants| then s.(grants := s.grants[i := s.grants[i].(sent := true)]) else s
    case Sweep(at) => s.(log := s.log + [Expire(at)], clock := at)
    case Crash(k, back, b) =>
      if k <= |s.log| then Srv(b, s.log[..k], s.durable, Survivors(s.grants, k), back) else s
    case Drop(c) => s.(log := s.log + [Delete(c)])
  }

  // ---------------------------------------------------------------- the invariant

  /** A client's running lease in the table is its committed lease in the book, and the other way
      round; a client without an identity has none in the table. */
  ghost predicate Agree(t: Table, b: Book, now: int) {
    && [] !in t
    && forall c :: c != [] ==> Committed(b, c, now) == if Runs(t, c, now) then Some(t[c]) else None
  }

  /** What each table, of any crash point, is: of addresses to hand out, none twice, none for longer
      than a lease lasts. */
  ghost predicate Tidy(n: Net, t: Table, now: int)
    requires ValidNet(n)
  {
    Apart(t, now) && [] !in t && forall c :: c in t ==> Host(n, t[c].ip) && t[c].expiry <= now + n.duration
  }

  /** The grant is in the table, as long or longer, or has run out. */
  predicate Stands(t: Table, g: Granted, now: int) {
    || g.lease.expiry <= now
    || (g.client in t && t[g.client].ip == g.lease.ip && t[g.client].expiry >= g.lease.expiry)
  }

  ghost predicate Backed(s: Srv, g: Granted) {
    && g.index < |s.log| && s.log[g.index] == Put(g.client, g.lease) && g.client != []
    && (g.sent ==> g.index < s.durable)
    && (!g.gone ==> forall k :: g.index < k <= |s.log| ==> Stands(Replay(s.log[..k]), g, s.clock))
  }

  ghost predicate Inv(n: Net, s: Srv)
    requires ValidNet(n)
  {
    && Sane(n, s.book) && s.durable <= |s.log|
    && Agree(Replay(s.log), s.book, s.clock)
    && (forall k :: 0 <= k <= |s.log| ==> Tidy(n, Replay(s.log[..k]), s.clock))
    && (forall g :: g in s.grants ==> Backed(s, g))
  }

  const START: Srv := Srv(EMPTY, [], 0, [], 0)

  lemma StartInv(n: Net, clock: int)
    requires ValidNet(n)
    ensures Inv(n, START.(clock := clock))
  {
  }

  // ---------------------------------------------------------------- one request

  lemma Later(n: Net, t: Table, b: Book, now: int, later: int)
    requires ValidNet(n) && now <= later
    ensures Agree(t, b, now) ==> Agree(t, b, later)
    ensures Tidy(n, t, now) ==> Tidy(n, t, later)
  {
    if Agree(t, b, now) {
      forall c | c != []
        ensures Committed(b, c, later) == if Runs(t, c, later) then Some(t[c]) else None
      {
        assert Committed(b, c, now) == if Runs(t, c, now) then Some(t[c]) else None;
      }
    }
  }

  /** The committed leases of other clients are as they were. */
  lemma OthersCommitted(n: Net, b: Book, b': Book, req: Message, a: Answer, now: int, later: int)
    requires ValidNet(n) && Effect(n, b, b', req, a, now) && now <= later
    ensures forall d :: d != ClientOf(req) ==> Committed(b', d, later) == Committed(b, d, later)
  {
  }

  lemma AgreeKept(t: Table, b: Book, b': Book, c: Client, later: int)
    requires Agree(t, b, later)
    requires forall d :: d != c ==> Committed(b', d, later) == Committed(b, d, later)
    ensures var op := Keep(b, b', c, later); Agree(if op.Some? then Apply(t, op.value) else t, b', later)
  {
  }

  /** What is written of a request is a lease it granted, new or renewed. */
  lemma PutIsGrant(n: Net, b: Book, b': Book, req: Message, a: Answer, now: int, later: int)
    requires ValidNet(n) && Effect(n, b, b', req, a, now) && now <= later
    requires Keep(b, b', ClientOf(req), later).Some? && Keep(b, b', ClientOf(req), later).value.Put?
    ensures var l := Keep(b, b', ClientOf(req), later).value.lease;
            a.Grant? && l == Lease(a.ip, now + n.duration) && Host(n, l.ip)
  {
  }

  /** A running committed lease not given up is still there, no shorter. */
  lemma RunningStays(n: Net, b: Book, b': Book, req: Message, a: Answer, now: int, later: int, l: Lease)
    requires ValidNet(n) && Effect(n, b, b', req, a, now) && now <= later && !Surrenders(n, b, req)
    requires Committed(b, ClientOf(req), later) == Some(l) && l.expiry <= now + n.duration
    ensures var r := Committed(b', ClientOf(req), later);
            r.Some? && r.value.ip == l.ip && r.value.expiry >= l.expiry
  {
  }

  lemma StandsKept(n: Net, t: Table, b: Book, b': Book, req: Message, a: Answer, now: int, later: int, g: Granted)
    requires ValidNet(n) && Effect(n, b, b', req, a, now) && now <= later && Agree(t, b, later)
    requires forall c :: c in t ==> t[c].expiry <= now + n.duration
    requires Stands(t, g, later) && g.client != [] && (Surrenders(n, b, req) ==> g.client != ClientOf(req))
    requires Keep(b, b', ClientOf(req), later).Some?
    ensures Stands(Apply(t, Keep(b, b', ClientOf(req), later).value), g, later)
  {
    var c := ClientOf(req);
    if g.client == c && later < g.lease.expiry {
      RunningStays(n, b, b', req, a, now, later, t[c]);
    }
  }

  // ---------------------------------------------------------------- writing to the log

  lemma Prefixes(log: seq<Op>, op: Op)
    ensures forall k :: 0 <= k <= |log| ==> (log + [op])[..k] == log[..k]
    ensures Replay((log + [op])[..|log| + 1]) == Apply(Replay(log), op)
  {
    ReplayAppend(log, op);
    assert (log + [op])[..|log| + 1] == log + [op];
  }

  lemma AppendTidy(n: Net, s: Srv, op: Op, later: int)
    requires ValidNet(n) && s.clock <= later && Tidy(n, Apply(Replay(s.log), op), later)
    requires forall k :: 0 <= k <= |s.log| ==> Tidy(n, Replay(s.log[..k]), s.clock)
    ensures forall k :: 0 <= k <= |s.log| + 1 ==> Tidy(n, Replay((s.log + [op])[..k]), later)
  {
    Prefixes(s.log, op);
    forall k | 0 <= k <= |s.log| + 1
      ensures Tidy(n, Replay((s.log + [op])[..k]), later)
    {
      if k <= |s.log| {
        Later(n, Replay(s.log[..k]), s.book, s.clock, later);
      }
    }
  }

  lemma AppendBacked(s: Srv, s': Srv, op: Op, g: Granted)
    requires Backed(s, g) && s'.log == s.log + [op] && s'.durable == s.durable && s.clock <= s'.clock
    requires !g.gone ==> Stands(Apply(Replay(s.log), op), g, s'.clock)
    ensures Backed(s', g)
  {
    Prefixes(s.log, op);
    if !g.gone {
      forall k | g.index < k <= |s'.log|
        ensures Stands(Replay(s'.log[..k]), g, s'.clock)
      {
        if k <= |s.log| {
          assert Stands(Replay(s.log[..k]), g, s.clock);
        }
      }
    }
  }

  lemma AgreeIsTidy(n: Net, t: Table, b: Book, now: int)
    requires ValidNet(n) && Sane(n, b) && Agree(t, b, now)
    ensures Apart(t, now)
  {
    forall c, d | Runs(t, c, now) && Runs(t, d, now) && t[c].ip == t[d].ip
      ensures c == d
    {
      assert Committed(b, c, now) == Some(t[c]) && Committed(b, d, now) == Some(t[d]);
      assert b.byIP[t[c].ip] == c && b.byIP[t[d].ip] == d;
    }
  }

  // ---------------------------------------------------------------- every step keeps it

  /** Everything but the grants, after a request that is written down. */
  lemma ServeWrites(n: Net, s: Srv, req: Message, b': Book, a: Answer, now: int, later: int, op: Op)
    requires ValidNet(n) && Inv(n, s) && s.clock < now <= later && Effect(n, s.book, b', req, a, now)
    requires Keep(s.book, b', ClientOf(req), later) == Some(op)
    ensures Agree(Replay(s.log + [op]), b', later)
    ensures forall k :: 0 <= k <= |s.log| + 1 ==> Tidy(n, Replay((s.log + [op])[..k]), later)
  {
    var t := Replay(s.log);
    Later(n, t, s.book, s.clock, later);
    OthersCommitted(n, s.book, b', req, a, now, later);
    AgreeKept(t, s.book, b', ClientOf(req), later);
    ReplayAppend(s.log, op);
    AgreeIsTidy(n, Apply(t, op), b', later);
    assert s.log[..|s.log|] == s.log;
    if op.Put? {
      PutIsGrant(n, s.book, b', req, a, now, later);
    }
    AppendTidy(n, s, op, later);
  }

  /** ... and after one that is not. */
  lemma ServeSilent(n: Net, s: Srv, req: Message, b': Book, a: Answer, now: int, later: int)
    requires ValidNet(n) && Inv(n, s) && s.clock < now <= later && Effect(n, s.book, b', req, a, now)
    requires Keep(s.book, b', ClientOf(req), later) == None
    ensures Agree(Replay(s.log), b', later)
    ensures forall k :: 0 <= k <= |s.log| ==> Tidy(n, Replay(s.log[..k]), later)
  {
    Later(n, Replay(s.log), s.book, s.clock, later);
    OthersCommitted(n, s.book, b', req, a, now, later);
    AgreeKept(Replay(s.log), s.book, b', ClientOf(req), later);
    forall k | 0 <= k <= |s.log|
      ensures Tidy(n, Replay(s.log[..k]), later)
    {
      Later(n, Replay(s.log[..k]), s.book, s.clock, later);
    }
  }

  /** An earlier grant, after a request. */
  lemma ServeBacks(n: Net, s: Srv, s': Srv, req: Message, a: Answer, now: int, later: int, g: Granted)
    requires ValidNet(n) && Inv(n, s) && s.clock < now <= later && Effect(n, s.book, s'.book, req, a, now)
    requires s'.durable == s.durable && s'.clock == later
    requires var op := Keep(s.book, s'.book, ClientOf(req), later); s'.log == if op.Some? then s.log + [op.value] else s.log
    requires Backed(s, g) && (Surrenders(n, s.book, req) && g.client == ClientOf(req) ==> g.gone)
    ensures Backed(s', g)
  {
    var t := Replay(s.log);
    var op := Keep(s.book, s'.book, ClientOf(req), later);
    assert s.log[..|s.log|] == s.log;
    if op.Some? {
      if !g.gone {
        assert Stands(t, g, s.clock);
        Later(n, t, s.book, s.clock, later);
        StandsKept(n, t, s.book, s'.book, req, a, now, later, g);
      }
      AppendBacked(s, s', op.value, g);
    }
  }

  /** The grant a request makes. */
  lemma NewBacked(s: Srv, s': Srv, c: Client, l: Lease)
    requires s'.log == s.log + [Put(c, l)] && c != []
    ensures Backed(s', Granted(|s.log|, c, l, false, false))
  {
    Prefixes(s.log, Put(c, l));
  }

  lemma GiveUpBacked(s: Srv, grants: seq<Granted>, c: Client)
    requires forall g :: g in grants ==> Backed(s, g)
    ensures forall g :: g in GiveUp(grants, c) ==> Backed(s, g)
  {
    var r := GiveUp(grants, c);
    forall g | g in r
      ensures Backed(s, g)
    {
      var i :| 0 <= i < |r| && r[i] == g;
      assert Backed(s, grants[i]);
    }
  }

  lemma ServeGrants(n: Net, s: Srv, req: Message, now: int, later: int)
    requires ValidNet(n) && Inv(n, s) && s.clock < now <= later
    requires var (b', a) := Decide(n, s.book, req, now); Effect(n, s.book, b', req, a, now)
    ensures var s' := ServeNext(n, s, req, now, later); forall g :: g in s'.grants ==> Backed(s', g)
  {
    var s' := ServeNext(n, s, req, now, later);
    var a := Decide(n, s.book, req, now).1;
    var c := ClientOf(req);
    var grants := if Surrenders(n, s.book, req) then GiveUp(s.grants, c) else s.grants;
    GiveUpBacked(s, s.grants, c);
    forall g | g in grants
      ensures Backed(s', g)
    {
      ServeBacks(n, s, s', req, a, now, later, g);
    }
    var op := Keep(s.book, s'.book, c, later);
    if op.Some? && op.value.Put? {
      NewBacked(s, s', c, op.value.lease);
    }
  }

  lemma ServeInv(n: Net, s: Srv, req: Message, now: int, later: int)
    requires ValidNet(n) && Inv(n, s) && s.clock < now <= later
    ensures Inv(n, ServeNext(n, s, req, now, later))
  {
    var (b', a) := Decide(n, s.book, req, now);
    RequestKeeps(n, s.book, req, now);
    var op := Keep(s.book, b', ClientOf(req), later);
    if op.Some? {
      ServeWrites(n, s, req, b', a, now, later, op.value);
    } else {
      ServeSilent(n, s, req, b', a, now, later);
    }
    ServeGrants(n, s, req, now, later);
  }

  lemma SweepInv(n: Net, s: Srv, at: int)
    requires ValidNet(n) && Inv(n, s) && s.clock <= at
    ensures Inv(n, Next(n, s, Sweep(at)))
  {
    var t := Replay(s.log);
    var s' := Next(n, s, Sweep(at));
    assert s.log[..|s.log|] == s.log;
    ReplayAppend(s.log, Expire(at));
    Later(n, t, s.book, s.clock, at);
    AppendTidy(n, s, Expire(at), at);
    forall g | g in s.grants
      ensures Backed(s', g)
    {
      assert !g.gone ==> Stands(t, g, s.clock);
      AppendBacked(s, s', Expire(at), g);
    }
  }

  lemma DropBacked(n: Net, s: Srv, c: Client, g: Granted)
    requires ValidNet(n) && Inv(n, s) && Enabled(n, s, Drop(c)) && g in s.grants
    ensures Backed(Next(n, s, Drop(c)), g)
  {
    assert s.log[..|s.log|] == s.log;
    ReplayAppend(s.log, Delete(c));
    assert !g.gone ==> Stands(Replay(s.log), g, s.clock);
    AppendBacked(s, Next(n, s, Drop(c)), Delete(c), g);
  }

  lemma DropInv(n: Net, s: Srv, c: Client)
    requires ValidNet(n) && Inv(n, s) && Enabled(n, s, Drop(c))
    ensures Inv(n, Next(n, s, Drop(c)))
  {
    var s' := Next(n, s, Drop(c));
    assert s.log[..|s.log|] == s.log;
    ReplayAppend(s.log, Delete(c));
    AppendTidy(n, s, Delete(c), s.clock);
    forall g | g in s.grants
      ensures Backed(s', g)
    {
      DropBacked(n, s, c, g);
    }
  }

  lemma SendInv(n: Net, s: Srv, i: nat)
    requires ValidNet(n) && Inv(n, s) && Enabled(n, s, Send(i))
    ensures Inv(n, Next(n, s, Send(i)))
  {
    var s' := Next(n, s, Send(i));
    forall g | g in s'.grants
      ensures Backed(s', g)
    {
      assert Backed(s, s.grants[i]);
      assert g in s.grants || g == s.grants[i].(sent := true);
    }
  }

  lemma SyncInv(n: Net, s: Srv, k: nat)
    requires ValidNet(n) && Inv(n, s) && Enabled(n, s, Sync(k))
    ensures Inv(n, Next(n, s, Sync(k)))
  {
    forall g | g in s.grants
      ensures Backed(s.(durable := k), g)
    {
      assert Backed(s, g);
    }
  }

  /** The book restored from a tidy table agrees with it. */
  lemma RestoredAgrees(n: Net, t: Table, now: int, b: Book)
    requires ValidNet(n) && Tidy(n, t, now) && Restored(n, t, t.Keys, now, b)
    ensures Agree(t, b, now)
  {
  }

  lemma CrashInv(n: Net, s: Srv, k: nat, back: int, b: Book)
    requires ValidNet(n) && Inv(n, s) && Enabled(n, s, Crash(k, back, b))
    ensures Inv(n, Next(n, s, Crash(k, back, b)))
  {
    var s' := Next(n, s, Crash(k, back, b));
    forall j | 0 <= j <= k
      ensures s'.log[..j] == s.log[..j] && Tidy(n, Replay(s'.log[..j]), back)
    {
      assert s'.log[..j] == s.log[..j];
      Later(n, Replay(s.log[..j]), s.book, s.clock, back);
    }
    assert s'.log[..k] == s'.log;
    RestoredAgrees(n, Replay(s'.log), back, b);
    forall g | g in s'.grants
      ensures Backed(s', g)
    {
      assert Backed(s, g);
      assert forall j :: g.index < j <= k && !g.gone ==> Stands(Replay(s.log[..j]), g, s.clock);
    }
  }

  lemma InvStep(n: Net, s: Srv, step: Step)
    requires ValidNet(n) && Inv(n, s) && Enabled(n, s, step)
    ensures Inv(n, Next(n, s, step))
  {
    match step
    case Serve(req, now, later) => ServeInv(n, s, req, now, later);
    case Sync(k) => SyncInv(n, s, k);
    case Send(i) => SendInv(n, s, i);
    case Sweep(at) => SweepInv(n, s, at);
    case Crash(k, back, b) => CrashInv(n, s, k, back, b);
    case Drop(c) => DropInv(n, s, c);
  }
}
