/** The ND proxy process over any run: what it sends, and the routes its casts install. */
module NdRuns {
  import opened Wrappers
  import opened Addresses
  import opened NdProxy

  datatype Effect =
    | Advertise(reply: Reply)
    | Solicit(lan: Iface, host: Addr)
    | Install(target: Addr, iface: Iface)
    | Remove(target: Addr, iface: Iface)

  // ---------------------------------------------------------------- the handlers

  /** probe: a solicitation out every LAN. */
  function ProbeAll(lans: seq<Iface>, target: Addr): seq<Effect> {
    if lans == [] then [] else ProbeAll(lans[..|lans| - 1], target) + [Solicit(lans[|lans| - 1], target)]
  }

  function ProbeEach(lans: seq<Iface>, ts: seq<Addr>): seq<Effect> {
    if ts == [] then [] else ProbeEach(lans, ts[..|ts| - 1]) + ProbeAll(lans, ts[|ts| - 1])
  }

  function RemoveEach(active: map<Addr, Entry>, ts: seq<Addr>): seq<Effect>
    requires forall t :: t in ts ==> t in active
  {
    if ts == [] then []
    else
      var last := ts[|ts| - 1];
      assert last in ts;
      RemoveEach(active, ts[..|ts| - 1]) + [Remove(last, active[last].iface)]
  }

  /** solicited */
  function Solicited(lans: seq<Iface>, s: State, now: int, target: Addr, source: Addr): (State, seq<Effect>) {
    var (s', reply, probe) := OnWanSolicit(s, now, target, source);
    (s', (if reply.Some? then [Advertise(reply.value)] else []) + (if probe then ProbeAll(lans, target) else []))
  }

  /** advertised */
  function Advertised(s: State, now: int, lan: Iface, target: Addr): (State, seq<Effect>) {
    var (s', reply) := OnLanAdvert(s, now, lan, target);
    if reply.None? then (s, [])
    else (s', [Advertise(reply.value), Install(reply.value.target, reply.value.iface)])
  }

  /** swept, its targets listed in whatever order. */
  function Swept(lans: seq<Iface>, s: State, now: int, again: seq<Addr>, gone: seq<Addr>): (State, seq<Effect>)
    requires forall t :: t in gone ==> t in s.active
  {
    (Sweep(s, now), ProbeEach(lans, again) + RemoveEach(s.active, gone))
  }

  // ---------------------------------------------------------------- the routes

  /** What a cast makes of the route map: an install replaces, a remove takes away what it names. */
  function Cast(m: map<Addr, Iface>, e: Effect): map<Addr, Iface> {
    if e.Install? then m[e.target := e.iface]
    else if e.Remove? && e.target in m && m[e.target] == e.iface then m - {e.target}
    else m
  }

  /** The route map all the casts build. */
  function Routes(effs: seq<Effect>): map<Addr, Iface> {
    if effs == [] then map[] else Cast(Routes(effs[..|effs| - 1]), effs[|effs| - 1])
  }

  function Ifaces(active: map<Addr, Entry>): map<Addr, Iface> {
    map t | t in active :: active[t].iface
  }

  lemma RoutesAppend(effs: seq<Effect>, e: Effect)
    ensures Routes(effs + [e]) == Cast(Routes(effs), e)
  {
    assert (effs + [e])[..|effs|] == effs;
  }

  lemma {:induction false} RoutesProbe(effs: seq<Effect>, lans: seq<Iface>, target: Addr)
    ensures Routes(effs + ProbeAll(lans, target)) == Routes(effs)
  {
    if lans == [] {
      assert effs + [] == effs;
    } else {
      var before := ProbeAll(lans[..|lans| - 1], target);
      var e := Solicit(lans[|lans| - 1], target);
      RoutesProbe(effs, lans[..|lans| - 1], target);
      RoutesAppend(effs + before, e);
      assert effs + (before + [e]) == effs + before + [e];
    }
  }

  lemma {:induction false} RoutesProbes(effs: seq<Effect>, lans: seq<Iface>, ts: seq<Addr>)
    ensures Routes(effs + ProbeEach(lans, ts)) == Routes(effs)
  {
    if ts == [] {
      assert effs + [] == effs;
    } else {
      var before := ProbeEach(lans, ts[..|ts| - 1]);
      var one := ProbeAll(lans, ts[|ts| - 1]);
      RoutesProbes(effs, lans, ts[..|ts| - 1]);
      RoutesProbe(effs + before, lans, ts[|ts| - 1]);
      assert effs + (before + one) == effs + before + one;
    }
  }

  /** `m` routes to the active hosts that are not in `ts`. */
  ghost predicate RoutesBut(m: map<Addr, Iface>, active: map<Addr, Entry>, ts: seq<Addr>) {
    && (forall t :: t in m <==> t in active && t !in ts)
    && (forall t :: t in m ==> m[t] == active[t].iface)
  }

  lemma CastRemoves(m: map<Addr, Iface>, active: map<Addr, Entry>, init: seq<Addr>, last: Addr)
    requires RoutesBut(m, active, init) && last in active && last !in init
    ensures RoutesBut(Cast(m, Remove(last, active[last].iface)), active, init + [last])
  {
    forall t
      ensures t in init + [last] <==> t in init || t == last
    {
    }
  }

  /** Removing the routes of the hosts listed, each still installed where it is active. */
  lemma {:induction false} RoutesRemove(effs: seq<Effect>, active: map<Addr, Entry>, ts: seq<Addr>)
    requires forall t :: t in ts ==> t in active
    requires RoutesBut(Routes(effs), active, [])
    requires forall i, j :: 0 <= i < j < |ts| ==> ts[i] != ts[j]
    ensures RoutesBut(Routes(effs + RemoveEach(active, ts)), active, ts)
  {
    if ts == [] {
      assert effs + [] == effs;
    } else {
      var last := ts[|ts| - 1];
      var init := ts[..|ts| - 1];
      assert last in ts && last !in init && ts == init + [last];
      RoutesRemove(effs, active, init);
      var before := RemoveEach(active, init);
      var e := Remove(last, active[last].iface);
      RoutesAppend(effs + before, e);
      assert effs + (before + [e]) == effs + before + [e];
      CastRemoves(Routes(effs + before), active, init, last);
    }
  }

  // ---------------------------------------------------------------- runs

  /** A LAN advertisement that answered a pending probe. */
  datatype Heard = Heard(target: Addr, iface: Iface, at: int)

  /** A WAN advertisement and when it went out. */
  datatype Said = Said(reply: Reply, at: int)

  /** The proxy's state; every effect so far; what was heard and said; and, for each pending target, how
      many effects there were when its probe began. */
  datatype Proxy = Proxy(st: State, effs: seq<Effect>, heard: seq<Heard>, said: seq<Said>, began: map<Addr, nat>, clock: int)

  datatype Event =
    | WanSolicit(now: int, target: Addr, source: Addr)
    | LanAdvert(now: int, lan: Iface, target: Addr)
    | SweepTimer(now: int, again: seq<Addr>, gone: seq<Addr>)

  ghost predicate Enabled(p: Proxy, e: Event) {
    && p.clock <= e.now
    && (e.SweepTimer? ==> Lists(e.again, Retransmitted(p.st, e.now)) && Lists(e.gone, ExpiredAt(p.st, e.now)))
  }

  function SaidBy(reply: Option<Reply>, now: int): seq<Said> {
    if reply.Some? then [Said(reply.value, now)] else []
  }

  ghost function Next(lans: seq<Iface>, p: Proxy, e: Event): Proxy
    requires Enabled(p, e)
  {
    match e
    case WanSolicit(now, target, source) =>
      var (s', effs) := Solicited(lans, p.st, now, target, source);
      var (_, reply, probe) := OnWanSolicit(p.st, now, target, source);
      Proxy(s', p.effs + effs, p.heard, p.said + SaidBy(reply, now),
            if probe then p.began[target := |p.effs|] else p.began, now)
    case LanAdvert(now, lan, target) =>
      var (s', effs) := Advertised(p.st, now, lan, target);
      var reply := OnLanAdvert(p.st, now, lan, target).1;
      Proxy(s', p.effs + effs, if reply.Some? then p.heard + [Heard(target, lan, now)] else p.heard,
            p.said + SaidBy(reply, now), p.began, now)
    case SweepTimer(now, again, gone) =>
      var (s', effs) := Swept(lans, p.st, now, again, gone);
      Proxy(s', p.effs + effs, p.heard, p.said, p.began, now)
  }

  ghost predicate Backed(heard: seq<Heard>, t: Addr, e: Entry) {
    Heard(t, e.iface, e.at) in heard
  }

  /** The reply names a host that answered on that interface less than five minutes before. */
  ghost predicate Justified(heard: seq<Heard>, s: Said) {
    exists h :: h in heard && h.target == s.reply.target && h.iface == s.reply.iface && h.at <= s.at < h.at + ACTIVE_TTL
  }

  /** How often `target` was solicited out of `lan`, from effect `from` on. */
  ghost function Times(effs: seq<Effect>, from: nat, lan: Iface, target: Addr): nat
    requires from <= |effs|
  {
    multiset(effs[from..])[Solicit(lan, target)]
  }

  ghost predicate Counted(lans: seq<Iface>, p: Proxy, t: Addr)
    requires t in p.st.pending
  {
    && t in p.began && p.began[t] <= |p.effs|
    && 1 <= p.st.pending[t].attempts <= MAX_SOLICIT
    && forall lan :: lan in lans ==> Times(p.effs, p.began[t], lan, t) == p.st.pending[t].attempts
  }

  ghost predicate Inv(lans: seq<Iface>, p: Proxy) {
    && Routes(p.effs) == Ifaces(p.st.active)
    && (forall t :: t in p.st.active ==> Backed(p.heard, t, p.st.active[t]) && p.st.active[t].at <= p.clock)
    && (forall t :: t in p.st.pending && t in p.st.active ==> !Fresh(p.st.active[t], p.clock))
    && (forall t :: t in p.st.pending ==> Counted(lans, p, t))
    && (forall s :: s in p.said ==> Justified(p.heard, s))
  }

  ghost predicate DistinctLans(lans: seq<Iface>) {
    forall i, j :: 0 <= i < j < |lans| ==> lans[i] != lans[j]
  }

  // ---------------------------------------------------------------- counting

  lemma CountAppend(a: seq<Effect>, b: seq<Effect>, e: Effect)
    ensures multiset(a + b)[e] == multiset(a)[e] + multiset(b)[e]
  {
    assert multiset(a + b) == multiset(a) + multiset(b);
  }

  lemma {:induction false} ProbeCounts(lans: seq<Iface>, target: Addr, lan: Iface, t: Addr)
    requires DistinctLans(lans)
    ensures multiset(ProbeAll(lans, target))[Solicit(lan, t)] == if lan in lans && t == target then 1 else 0
  {
    if lans != [] {
      var init, last := lans[..|lans| - 1], lans[|lans| - 1];
      ProbeCounts(init, target, lan, t);
      CountAppend(ProbeAll(init, target), [Solicit(last, target)], Solicit(lan, t));
      LastOnce(lans, lan);
    }
  }

  lemma LastOnce<T>(ts: seq<T>, t: T)
    requires ts != [] && forall i, j :: 0 <= i < j < |ts| ==> ts[i] != ts[j]
    ensures t in ts <==> t in ts[..|ts| - 1] || t == ts[|ts| - 1]
    ensures ts[|ts| - 1] !in ts[..|ts| - 1]
  {
  }

  lemma {:induction false} ProbesCount(lans: seq<Iface>, ts: seq<Addr>, lan: Iface, t: Addr)
    requires DistinctLans(lans) && lan in lans && forall i, j :: 0 <= i < j < |ts| ==> ts[i] != ts[j]
    ensures multiset(ProbeEach(lans, ts))[Solicit(lan, t)] == if t in ts then 1 else 0
  {
    if ts != [] {
      var init, last := ts[..|ts| - 1], ts[|ts| - 1];
      ProbesCount(lans, init, lan, t);
      ProbeCounts(lans, last, lan, t);
      CountAppend(ProbeEach(lans, init), ProbeAll(lans, last), Solicit(lan, t));
      LastOnce(ts, t);
    }
  }

  lemma {:induction false} RemovesCount(active: map<Addr, Entry>, ts: seq<Addr>, lan: Iface, t: Addr)
    requires forall u :: u in ts ==> u in active
    ensures multiset(RemoveEach(active, ts))[Solicit(lan, t)] == 0
  {
    if ts != [] {
      var init, last := ts[..|ts| - 1], ts[|ts| - 1];
      assert last in ts;
      RemovesCount(active, init, lan, t);
      var e := Remove(last, active[last].iface);
      assert multiset(RemoveEach(active, ts)) == multiset(RemoveEach(active, init)) + multiset([e]);
    }
  }

  lemma TimesAppend(effs: seq<Effect>, more: seq<Effect>, from: nat, lan: Iface, t: Addr)
    requires from <= |effs|
    ensures Times(effs + more, from, lan, t) == Times(effs, from, lan, t) + multiset(more)[Solicit(lan, t)]
  {
    assert (effs + more)[from..] == effs[from..] + more;
  }

  // ---------------------------------------------------------------- every event keeps it

  /** More heard and more said. */
  lemma StillJustified(heard: seq<Heard>, more: seq<Heard>, s: Said)
    requires Justified(heard, s)
    ensures Justified(heard + more, s)
  {
    var h :| h in heard && h.target == s.reply.target && h.iface == s.reply.iface && h.at <= s.at < h.at + ACTIVE_TTL;
    assert h in heard + more;
  }

  /** An advertisement of a fresh host. */
  lemma FreshJustified(heard: seq<Heard>, t: Addr, e: Entry, reply: Reply, now: int)
    requires Backed(heard, t, e) && Fresh(e, now) && e.at <= now && reply.target == t && reply.iface == e.iface
    ensures Justified(heard, Said(reply, now))
  {
    assert Heard(t, e.iface, e.at) in heard;
  }

  /** A pending target, after effects that solicit it `k` more times out of every LAN. */
  lemma CountedMore(lans: seq<Iface>, p: Proxy, p': Proxy, t: Addr, more: seq<Effect>, k: nat)
    requires t in p.st.pending && Counted(lans, p, t) && t in p'.st.pending
    requires p'.effs == p.effs + more && t in p'.began && p'.began[t] == p.began[t]
    requires p'.st.pending[t].attempts == p.st.pending[t].attempts + k <= MAX_SOLICIT
    requires forall lan :: lan in lans ==> multiset(more)[Solicit(lan, t)] == k
    ensures Counted(lans, p', t)
  {
    forall lan | lan in lans
      ensures Times(p'.effs, p'.began[t], lan, t) == p'.st.pending[t].attempts
    {
      TimesAppend(p.effs, more, p.began[t], lan, t);
    }
  }

  /** A host known and fresh is answered for at once. */
  lemma WanAnswered(lans: seq<Iface>, p: Proxy, now: int, target: Addr, source: Addr)
    requires Inv(lans, p) && p.clock <= now && target in p.st.active && Fresh(p.st.active[target], now)
    ensures Inv(lans, Next(lans, p, WanSolicit(now, target, source)))
  {
    var p' := Next(lans, p, WanSolicit(now, target, source));
    var reply := Reply(target, source, p.st.active[target].iface);
    var more := [Advertise(reply)];
    assert more + [] == more;
    assert p' == p.(effs := p.effs + more, said := p.said + [Said(reply, now)], clock := now);
    RoutesAppend(p.effs, Advertise(reply));
    FreshJustified(p.heard, target, p.st.active[target], reply, now);
    forall t | t in p'.st.pending
      ensures Counted(lans, p', t)
    {
      CountedMore(lans, p, p', t, more, 0);
    }
  }

  /** One being probed waits. */
  lemma WanWaits(lans: seq<Iface>, p: Proxy, now: int, target: Addr, source: Addr)
    requires Inv(lans, p) && p.clock <= now && target in p.st.pending
    requires !(target in p.st.active && Fresh(p.st.active[target], now))
    ensures Inv(lans, Next(lans, p, WanSolicit(now, target, source)))
  {
    var p' := Next(lans, p, WanSolicit(now, target, source));
    assert p.effs + ([] + []) == p.effs && p.said + [] == p.said;
    assert p'.effs == p.effs && p'.said == p.said && p'.st.active == p.st.active && p'.heard == p.heard && p'.began == p.began;
    forall t | t in p'.st.pending
      ensures Counted(lans, p', t)
    {
      assert t in p.st.pending;
      CountedMore(lans, p, p', t, [], 0);
    }
  }

  /** Another is probed. */
  lemma WanProbes(lans: seq<Iface>, p: Proxy, now: int, target: Addr, source: Addr)
    requires Inv(lans, p) && DistinctLans(lans) && p.clock <= now && target !in p.st.pending
    requires !(target in p.st.active && Fresh(p.st.active[target], now))
    ensures Inv(lans, Next(lans, p, WanSolicit(now, target, source)))
  {
    var p' := Next(lans, p, WanSolicit(now, target, source));
    var more := ProbeAll(lans, target);
    assert [] + more == more && p.said + [] == p.said;
    assert p'.effs == p.effs + more && p'.said == p.said && p'.st.active == p.st.active && p'.heard == p.heard;
    RoutesProbe(p.effs, lans, target);
    forall t | t in p'.st.pending
      ensures Counted(lans, p', t)
    {
      if t == target {
        assert p'.effs[|p.effs|..] == more;
        forall lan | lan in lans
          ensures Times(p'.effs, |p.effs|, lan, t) == 1
        {
          ProbeCounts(lans, target, lan, t);
        }
      } else {
        forall lan | lan in lans
          ensures multiset(more)[Solicit(lan, t)] == 0
        {
          ProbeCounts(lans, target, lan, t);
        }
        CountedMore(lans, p, p', t, more, 0);
      }
    }
  }

  /** A LAN advertisement that answers no probe changes nothing. */
  lemma LanIgnored(lans: seq<Iface>, p: Proxy, now: int, lan: Iface, target: Addr)
    requires Inv(lans, p) && p.clock <= now && target !in p.st.pending
    ensures Inv(lans, Next(lans, p, LanAdvert(now, lan, target)))
  {
    var p' := Next(lans, p, LanAdvert(now, lan, target));
    assert p.effs + [] == p.effs && p.said + [] == p.said;
    assert p' == p.(clock := now);
    forall t | t in p'.st.pending
      ensures Counted(lans, p', t)
    {
      assert Counted(lans, p, t);
    }
  }

  lemma RoutesInstall(effs: seq<Effect>, reply: Reply)
    ensures Routes(effs + [Advertise(reply), Install(reply.target, reply.iface)]) == Routes(effs)[reply.target := reply.iface]
  {
    RoutesAppend(effs, Advertise(reply));
    RoutesAppend(effs + [Advertise(reply)], Install(reply.target, reply.iface));
    assert effs + [Advertise(reply), Install(reply.target, reply.iface)]
           == effs + [Advertise(reply)] + [Install(reply.target, reply.iface)];
  }

  /** What was said before, and now of what is heard now. */
  lemma SaidJustified(heard: seq<Heard>, said: seq<Said>, h: Heard, reply: Reply)
    requires forall s :: s in said ==> Justified(heard, s)
    requires reply.target == h.target && reply.iface == h.iface
    ensures h in heard + [h] && forall s :: s in said + [Said(reply, h.at)] ==> Justified(heard + [h], s)
  {
    assert (heard + [h])[|heard|] == h;
    forall s | s in said + [Said(reply, h.at)]
      ensures Justified(heard + [h], s)
    {
      if s in said {
        StillJustified(heard, [h], s);
      }
    }
  }

  /** `p'` is `p` after host `target` answered on `lan`. */
  ghost predicate Confirmed(p: Proxy, p': Proxy, now: int, lan: Iface, target: Addr) {
    && target in p.st.pending
    && var reply := Reply(target, p.st.pending[target].solicitor, lan);
       && p'.st == State(p.st.pending - {target}, p.st.active[target := Entry(lan, now)])
       && p'.effs == p.effs + [Advertise(reply), Install(target, lan)]
       && p'.heard == p.heard + [Heard(target, lan, now)] && p'.said == p.said + [Said(reply, now)]
       && p'.began == p.began && p'.clock == now
  }

  lemma ConfirmedRoutes(lans: seq<Iface>, p: Proxy, p': Proxy, now: int, lan: Iface, target: Addr)
    requires Inv(lans, p) && p.clock <= now && Confirmed(p, p', now, lan, target)
    ensures Routes(p'.effs) == Ifaces(p'.st.active)
    ensures forall t :: t in p'.st.active ==> Backed(p'.heard, t, p'.st.active[t]) && p'.st.active[t].at <= now
    ensures forall t :: t in p'.st.pending && t in p'.st.active ==> !Fresh(p'.st.active[t], now)
  {
    RoutesInstall(p.effs, Reply(target, p.st.pending[target].solicitor, lan));
    assert p'.heard[|p.heard|] == Heard(target, lan, now);
  }

  lemma ConfirmedCounts(lans: seq<Iface>, p: Proxy, p': Proxy, now: int, lan: Iface, target: Addr)
    requires Inv(lans, p) && Confirmed(p, p', now, lan, target)
    ensures forall t :: t in p'.st.pending ==> Counted(lans, p', t)
  {
    var more := [Advertise(Reply(target, p.st.pending[target].solicitor, lan)), Install(target, lan)];
    forall t | t in p'.st.pending
      ensures Counted(lans, p', t)
    {
      CountedMore(lans, p, p', t, more, 0);
    }
  }

  /** One that does makes the host active. */
  lemma LanConfirms(lans: seq<Iface>, p: Proxy, now: int, lan: Iface, target: Addr)
    requires Inv(lans, p) && p.clock <= now && target in p.st.pending
    ensures Inv(lans, Next(lans, p, LanAdvert(now, lan, target)))
  {
    var p' := Next(lans, p, LanAdvert(now, lan, target));
    assert Confirmed(p, p', now, lan, target);
    ConfirmedRoutes(lans, p, p', now, lan, target);
    ConfirmedCounts(lans, p, p', now, lan, target);
    SaidJustified(p.heard, p.said, Heard(target, lan, now), Reply(target, p.st.pending[target].solicitor, lan));
  }

  lemma RoutesButSwept(m: map<Addr, Iface>, st: State, now: int, gone: seq<Addr>)
    requires RoutesBut(m, st.active, gone) && Lists(gone, ExpiredAt(st, now))
    ensures m == Ifaces(SweptActive(st.active, now))
  {
  }

  lemma SweepRoutes(lans: seq<Iface>, p: Proxy, now: int, again: seq<Addr>, gone: seq<Addr>)
    requires Routes(p.effs) == Ifaces(p.st.active) && Lists(gone, ExpiredAt(p.st, now))
    ensures Routes(p.effs + (ProbeEach(lans, again) + RemoveEach(p.st.active, gone))) == Ifaces(SweptActive(p.st.active, now))
  {
    var probes, removes := ProbeEach(lans, again), RemoveEach(p.st.active, gone);
    RoutesProbes(p.effs, lans, again);
    RoutesRemove(p.effs + probes, p.st.active, gone);
    RoutesButSwept(Routes(p.effs + probes + removes), p.st, now, gone);
    assert p.effs + (probes + removes) == p.effs + probes + removes;
  }

  lemma SweepCounts(lans: seq<Iface>, p: Proxy, now: int, again: seq<Addr>, gone: seq<Addr>, lan: Iface, t: Addr)
    requires DistinctLans(lans) && lan in lans
    requires Lists(again, Retransmitted(p.st, now)) && Lists(gone, ExpiredAt(p.st, now))
    ensures multiset(ProbeEach(lans, again) + RemoveEach(p.st.active, gone))[Solicit(lan, t)]
            == if t in Retransmitted(p.st, now) then 1 else 0
  {
    ProbesCount(lans, again, lan, t);
    RemovesCount(p.st.active, gone, lan, t);
  }

  lemma SweepKeeps(lans: seq<Iface>, p: Proxy, now: int, again: seq<Addr>, gone: seq<Addr>)
    requires Inv(lans, p) && DistinctLans(lans) && Enabled(p, SweepTimer(now, again, gone))
    ensures Inv(lans, Next(lans, p, SweepTimer(now, again, gone)))
  {
    var p' := Next(lans, p, SweepTimer(now, again, gone));
    var more := ProbeEach(lans, again) + RemoveEach(p.st.active, gone);
    SweepRoutes(lans, p, now, again, gone);
    forall t | t in p'.st.pending
      ensures Counted(lans, p', t)
    {
      var k := if t in Retransmitted(p.st, now) then 1 else 0;
      forall lan | lan in lans
        ensures multiset(more)[Solicit(lan, t)] == k
      {
        SweepCounts(lans, p, now, again, gone, lan, t);
      }
      CountedMore(lans, p, p', t, more, k);
    }
  }

  lemma InvStep(lans: seq<Iface>, p: Proxy, e: Event)
    requires Inv(lans, p) && DistinctLans(lans) && Enabled(p, e)
    ensures Inv(lans, Next(lans, p, e))
  {
    match e
    case WanSolicit(now, target, source) =>
      if target in p.st.active && Fresh(p.st.active[target], now) {
        WanAnswered(lans, p, now, target, source);
      } else if target in p.st.pending {
        WanWaits(lans, p, now, target, source);
      } else {
        WanProbes(lans, p, now, target, source);
      }
    case LanAdvert(now, lan, target) =>
      if target in p.st.pending {
        LanConfirms(lans, p, now, lan, target);
      } else {
        LanIgnored(lans, p, now, lan, target);
      }
    case SweepTimer(now, again, gone) =>
      SweepKeeps(lans, p, now, again, gone);
  }

  // ---------------------------------------------------------------- what every run keeps

  datatype Trace = Trace(states: seq<Proxy>, events: seq<Event>)

  ghost predicate Link(lans: seq<Iface>, tr: Trace, i: nat)
    requires |tr.states| == |tr.events| + 1 && i < |tr.events|
  {
    Enabled(tr.states[i], tr.events[i]) && tr.states[i + 1] == Next(lans, tr.states[i], tr.events[i])
  }

  ghost predicate IsTrace(lans: seq<Iface>, tr: Trace) {
    && DistinctLans(lans) && |tr.states| == |tr.events| + 1
    && tr.states[0] == Proxy(State(map[], map[]), [], [], [], map[], tr.states[0].clock)
    && forall i :: 0 <= i < |tr.events| ==> Link(lans, tr, i)
  }

  lemma {:induction false} Reachable(lans: seq<Iface>, tr: Trace, i: nat)
    requires IsTrace(lans, tr) && i < |tr.states|
    ensures Inv(lans, tr.states[i])
  {
    if i > 0 {
      var j := i - 1;
      Reachable(lans, tr, j);
      assert Link(lans, tr, j);
      InvStep(lans, tr.states[j], tr.events[j]);
    }
  }

  /** The advertisements among the effects, in order. */
  function Adverts(effs: seq<Effect>): seq<Reply> {
    if effs == [] then []
    else
      var last := effs[|effs| - 1];
      Adverts(effs[..|effs| - 1]) + (if last.Advertise? then [last.reply] else [])
  }

  function Replies(said: seq<Said>): seq<Reply> {
    seq(|said|, i requires 0 <= i < |said| => said[i].reply)
  }

  lemma {:induction false} AdvertsAppend(effs: seq<Effect>, more: seq<Effect>)
    ensures Adverts(effs + more) == Adverts(effs) + Adverts(more)
  {
    if more == [] {
      assert effs + more == effs;
    } else {
      var init, last := more[..|more| - 1], more[|more| - 1];
      AdvertsAppend(effs, init);
      assert (effs + more)[..|effs + more| - 1] == effs + init;
      var one := if last.Advertise? then [last.reply] else [];
      assert Adverts(effs) + (Adverts(init) + one) == Adverts(effs) + Adverts(init) + one;
    }
  }

  lemma {:induction false} NoAdvertsProbing(lans: seq<Iface>, target: Addr)
    ensures Adverts(ProbeAll(lans, target)) == []
  {
    if lans != [] {
      var before, e := ProbeAll(lans[..|lans| - 1], target), Solicit(lans[|lans| - 1], target);
      NoAdvertsProbing(lans[..|lans| - 1], target);
      assert (before + [e])[..|before|] == before;
    }
  }

  lemma {:induction false} NoAdvertsAgain(lans: seq<Iface>, ts: seq<Addr>)
    ensures Adverts(ProbeEach(lans, ts)) == []
  {
    if ts != [] {
      NoAdvertsAgain(lans, ts[..|ts| - 1]);
      NoAdvertsProbing(lans, ts[|ts| - 1]);
      AdvertsAppend(ProbeEach(lans, ts[..|ts| - 1]), ProbeAll(lans, ts[|ts| - 1]));
    }
  }

  lemma {:induction false} NoAdvertsRemoving(active: map<Addr, Entry>, ts: seq<Addr>)
    requires forall t :: t in ts ==> t in active
    ensures Adverts(RemoveEach(active, ts)) == []
  {
    if ts != [] {
      var before := RemoveEach(active, ts[..|ts| - 1]);
      assert ts[|ts| - 1] in ts;
      NoAdvertsRemoving(active, ts[..|ts| - 1]);
      assert RemoveEach(active, ts)[..|before|] == before;
    }
  }

  lemma OneAdvert(reply: Reply, more: seq<Effect>)
    requires Adverts(more) == []
    ensures Adverts([Advertise(reply)] + more) == [reply]
  {
    AdvertsAppend([Advertise(reply)], more);
    assert [Advertise(reply)][..0] == [];
  }

  lemma SolicitSays(lans: seq<Iface>, st: State, now: int, target: Addr, source: Addr)
    ensures Adverts(Solicited(lans, st, now, target, source).1)
            == Replies(SaidBy(OnWanSolicit(st, now, target, source).1, now))
  {
    var (_, reply, probe) := OnWanSolicit(st, now, target, source);
    var probes := if probe then ProbeAll(lans, target) else [];
    NoAdvertsProbing(lans, target);
    if reply.Some? {
      OneAdvert(reply.value, probes);
    } else {
      assert [] + probes == probes;
    }
  }

  lemma AdvertSays(st: State, now: int, lan: Iface, target: Addr)
    ensures Adverts(Advertised(st, now, lan, target).1) == Replies(SaidBy(OnLanAdvert(st, now, lan, target).1, now))
  {
    var reply := OnLanAdvert(st, now, lan, target).1;
    if reply.Some? {
      var install := [Install(reply.value.target, reply.value.iface)];
      assert install[..0] == [];
      OneAdvert(reply.value, install);
      assert Advertised(st, now, lan, target).1 == [Advertise(reply.value)] + install;
    }
  }

  lemma SweepSays(lans: seq<Iface>, st: State, now: int, again: seq<Addr>, gone: seq<Addr>)
    requires forall t :: t in gone ==> t in st.active
    ensures Adverts(Swept(lans, st, now, again, gone).1) == []
  {
    NoAdvertsAgain(lans, again);
    NoAdvertsRemoving(st.active, gone);
    AdvertsAppend(ProbeEach(lans, again), RemoveEach(st.active, gone));
  }

  lemma RepliesAppend(said: seq<Said>, more: seq<Said>)
    ensures Replies(said + more) == Replies(said) + Replies(more)
  {
  }

  /** What an event adds to the effects advertises what it adds to what was said. */
  lemma SaidNext(lans: seq<Iface>, p: Proxy, e: Event)
    requires Enabled(p, e) && Adverts(p.effs) == Replies(p.said)
    ensures Adverts(Next(lans, p, e).effs) == Replies(Next(lans, p, e).said)
  {
    match e
    case WanSolicit(now, target, source) =>
      SolicitSays(lans, p.st, now, target, source);
      AdvertsAppend(p.effs, Solicited(lans, p.st, now, target, source).1);
      RepliesAppend(p.said, SaidBy(OnWanSolicit(p.st, now, target, source).1, now));
    case LanAdvert(now, lan, target) =>
      AdvertSays(p.st, now, lan, target);
      AdvertsAppend(p.effs, Advertised(p.st, now, lan, target).1);
      RepliesAppend(p.said, SaidBy(OnLanAdvert(p.st, now, lan, target).1, now));
    case SweepTimer(now, again, gone) =>
      SweepSays(lans, p.st, now, again, gone);
      AdvertsAppend(p.effs, Swept(lans, p.st, now, again, gone).1);
  }

  /** What was said is what was sent. */
  lemma {:induction false} SaidIsSent(lans: seq<Iface>, tr: Trace, i: nat)
    requires IsTrace(lans, tr) && i < |tr.states|
    ensures Adverts(tr.states[i].effs) == Replies(tr.states[i].said)
  {
    if i > 0 {
      var j := i - 1;
      SaidIsSent(lans, tr, j);
      assert Link(lans, tr, j);
      SaidNext(lans, tr.states[j], tr.events[j]);
    }
  }

  /** Every advertisement sent on the WAN names a host that answered a pending probe, on the interface
      named, less than five minutes before it was sent. */
  lemma AdvertsAreBacked(lans: seq<Iface>, tr: Trace, i: nat, k: nat)
    requires IsTrace(lans, tr) && i < |tr.states| && k < |Adverts(tr.states[i].effs)|
    ensures var p := tr.states[i];
            && k < |p.said| && p.said[k].reply == Adverts(p.effs)[k]
            && exists h :: && h in p.heard && h.target == Adverts(p.effs)[k].target && h.iface == Adverts(p.effs)[k].iface
                           && h.at <= p.said[k].at < h.at + ACTIVE_TTL
  {
    Reachable(lans, tr, i);
    SaidIsSent(lans, tr, i);
    assert Justified(tr.states[i].heard, tr.states[i].said[k]);
  }

  /** No host is being probed and freshly active at once. */
  lemma NeverBoth(lans: seq<Iface>, tr: Trace, i: nat, t: Addr)
    requires IsTrace(lans, tr) && i < |tr.states|
    ensures var p := tr.states[i]; !(t in p.st.pending && t in p.st.active && Fresh(p.st.active[t], p.clock))
  {
    Reachable(lans, tr, i);
  }

  /** A pending probe has solicited its target as often as it counts, at most three times, out of each
      LAN. */
  lemma AtMostThree(lans: seq<Iface>, tr: Trace, i: nat, t: Addr, lan: Iface)
    requires IsTrace(lans, tr) && i < |tr.states| && t in tr.states[i].st.pending && lan in lans
    ensures var p := tr.states[i];
            t in p.began && p.began[t] <= |p.effs|
            && 1 <= Times(p.effs, p.began[t], lan, t) == p.st.pending[t].attempts <= MAX_SOLICIT
  {
    Reachable(lans, tr, i);
    assert Counted(lans, tr.states[i], t);
  }

  /** The route map that the casts build is always the active map. */
  lemma RoutesAreActive(lans: seq<Iface>, tr: Trace, i: nat)
    requires IsTrace(lans, tr) && i < |tr.states|
    ensures Routes(tr.states[i].effs) == Ifaces(tr.states[i].st.active)
  {
    Reachable(lans, tr, i);
  }
}
