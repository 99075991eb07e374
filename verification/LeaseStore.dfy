/** The durable table of committed leases: a log of writes, of which a crash keeps a prefix; and the
    pool a restart makes of it. */
module LeaseStore {
  import opened LeaseBook
  import opened LeasePool

  type Table = map<Client, Lease>

  datatype Op = Put(client: Client, lease: Lease) | Delete(client: Client) | Expire(now: int)

  function Apply(t: Table, op: Op): Table {
    match op
    case Put(c, l) => t[c := l]
    case Delete(c) => t - {c}
    case Expire(now) => map c | c in t && now < t[c].expiry :: t[c]
  }

  /** The table after a log of writes. */
  function Replay(log: seq<Op>): Table {
    if log == [] then map[] else Apply(Replay(log[..|log| - 1]), log[|log| - 1])
  }

  lemma ReplayAppend(log: seq<Op>, op: Op)
    ensures Replay(log + [op]) == Apply(Replay(log), op)
  {
    assert (log + [op])[..|log|] == log;
  }

  predicate Runs(t: Table, c: Client, now: int) {
    c in t && now < t[c].expiry
  }

  /** No two leases that run are of one address. */
  ghost predicate Apart(t: Table, now: int) {
    forall c, d :: Runs(t, c, now) && Runs(t, d, now) && t[c].ip == t[d].ip ==> c == d
  }

  // ---------------------------------------------------------------- restarting

  /** The leases a pool takes back: those that run, of an address it may hand out. */
  predicate TakenBack(n: Net, t: Table, c: Client, now: int)
    requires ValidNet(n)
  {
    Runs(t, c, now) && Host(n, t[c].ip)
  }

  /** `b` holds the leases taken back of the clients in `done`, committed as they were. */
  ghost predicate Restored(n: Net, t: Table, done: set<Client>, now: int, b: Book)
    requires ValidNet(n)
  {
    && Sane(n, b) && b.declined == map[]
    && (forall c :: c in b.byClient <==> c in done && TakenBack(n, t, c, now))
    && (forall c :: c in b.byClient ==> b.byClient[c] == Binding(t[c].ip, t[c].expiry, true))
  }

  /** The pool is the same whatever the order of the table. */
  lemma RestoredUnique(n: Net, t: Table, done: set<Client>, now: int, b: Book, b': Book)
    requires ValidNet(n) && Restored(n, t, done, now, b) && Restored(n, t, done, now, b')
    ensures b == b'
  {
    assert b.byClient == b'.byClient;
    assert forall ip :: ip in b.byIP ==> b.byIP[ip] in b'.byClient && ip in b'.byIP && b'.byIP[ip] == b.byIP[ip];
    assert forall ip :: ip in b'.byIP ==> b'.byIP[ip] in b.byClient && ip in b.byIP;
    assert b.byIP == b'.byIP;
  }

  /** `b` holds leases taken back of clients in `done`, committed as they were, and the address of every
      one of them: where running leases share an address, one of them has it. */
  ghost predicate PutBack(n: Net, t: Table, done: set<Client>, now: int, b: Book)
    requires ValidNet(n)
  {
    && Sane(n, b) && b.declined == map[]
    && (forall c :: c in b.byClient ==>
          c in done && TakenBack(n, t, c, now) && b.byClient[c] == Binding(t[c].ip, t[c].expiry, true))
    && (forall c :: c in done && TakenBack(n, t, c, now) ==> t[c].ip in b.byIP)
  }

  /** Where none do, every one of them is held. */
  lemma PutBackApart(n: Net, t: Table, done: set<Client>, now: int, b: Book)
    requires ValidNet(n) && PutBack(n, t, done, now, b) && Apart(t, now)
    ensures Restored(n, t, done, now, b)
  {
    forall c | c in done && TakenBack(n, t, c, now)
      ensures c in b.byClient
    {
      var d := b.byIP[t[c].ip];
      assert d in b.byClient && t[d].ip == t[c].ip;
    }
  }

  /** A lease is refused exactly when it does not run, is of no address to hand out, or of one put back. */
  lemma RestoreOne(n: Net, t: Table, done: set<Client>, c: Client, now: int, b: Book)
    requires ValidNet(n) && PutBack(n, t, done, now, b) && c in t && c !in done
    ensures var (b', ok) := Restore(n, b, c, t[c], now);
            && (ok <==> TakenBack(n, t, c, now) && t[c].ip !in b.byIP)
            && b'.byClient.Keys == (if ok then b.byClient.Keys + {c} else b.byClient.Keys)
            && PutBack(n, t, done + {c}, now, b')
  {
    var l := t[c];
    if l.ip in b.byIP {
      var d := b.byIP[l.ip];
      assert d in b.byClient && Runs(t, d, now);
    }
    RestoreLeavesStale(n, b, c, l, now);
  }

  /** What restore has made of the clients in `done`. */
  ghost predicate Settled(n: Net, t: Table, done: set<Client>, now: int, b: Book, gone: set<Client>)
    requires ValidNet(n)
  {
    PutBack(n, t, done, now, b) && gone == done - b.byClient.Keys
  }

  /** One turn of it. */
  method RestoreNext(pool: Pool, table: Table, ghost done: set<Client>, c: Client, gone: set<Client>, now: int)
    returns (gone': set<Client>)
    requires ValidNet(pool.net) && Settled(pool.net, table, done, now, pool.View(), gone)
    requires c in table && c !in done
    modifies pool
    ensures Settled(pool.net, table, done + {c}, now, pool.View(), gone')
  {
    RestoreOne(pool.net, table, done, c, now, pool.View());
    var ok := pool.Restore(c, table[c], now);
    gone' := if ok then gone else gone + {c};
  }

  /** The first loop of restore, in whatever order. */
  method RestoreEach(pool: Pool, table: Table, now: int) returns (gone: set<Client>)
    requires pool.Valid() && pool.View() == EMPTY
    modifies pool
    ensures ValidNet(pool.net) && Settled(pool.net, table, table.Keys, now, pool.View(), gone)
  {
    gone := {};
    var todo := table.Keys;
    while todo != {}
      invariant todo <= table.Keys
      invariant Settled(pool.net, table, table.Keys - todo, now, pool.View(), gone)
      decreases |todo|
    {
      var c :| c in todo;
      assert table.Keys - (todo - {c}) == (table.Keys - todo) + {c};
      gone := RestoreNext(pool, table, table.Keys - todo, c, gone, now);
      todo := todo - {c};
    }
    assert table.Keys - {} == table.Keys;
  }

  /** The second. */
  method DeleteEach(table: Table, gone: set<Client>) returns (kept: Table)
    ensures kept == table - gone
  {
    kept := table;
    var todo := gone;
    while todo != {}
      invariant todo <= gone && kept == table - (gone - todo)
      decreases |todo|
    {
      var c :| c in todo;
      assert gone - (todo - {c}) == (gone - todo) + {c};
      kept := kept - {c};
      todo := todo - {c};
    }
    assert gone - {} == gone;
  }

  /** restore: puts the leases kept back into a fresh pool and deletes those the pool does not take. */
  method RestoreAll(pool: Pool, table: Table, now: int) returns (kept: Table)
    requires pool.Valid() && pool.View() == EMPTY
    modifies pool
    ensures pool.Valid() && PutBack(pool.net, table, table.Keys, now, pool.View())
    ensures kept == map c | c in table && c in pool.byClient :: table[c]
    ensures Apart(table, now) ==>
              && Restored(pool.net, table, table.Keys, now, pool.View())
              && kept == map c | c in table && TakenBack(pool.net, table, c, now) :: table[c]
  {
    var gone := RestoreEach(pool, table, now);
    kept := DeleteEach(table, gone);
    if Apart(table, now) {
      PutBackApart(pool.net, table, table.Keys, now, pool.View());
    }
  }
}
