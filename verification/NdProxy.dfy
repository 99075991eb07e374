/** The ND proxy (RFC 4389): which hosts behind a LAN it answers the WAN for. */
module NdProxy {
  import opened Wrappers
  import opened Addresses

  const SECOND := 1_000_000_000
  const MAX_SOLICIT := 3
  const RETRANS := SECOND
  const ACTIVE_TTL := 300 * SECOND

  type Iface = string

  datatype Probe = Probe(attempts: nat, next: int, solicitor: Addr)
  datatype Entry = Entry(iface: Iface, at: int)
  datatype Reply = Reply(target: Addr, solicitor: Addr, iface: Iface)

  datatype State = State(pending: map<Addr, Probe>, active: map<Addr, Entry>)

  predicate Fresh(e: Entry, now: int) { now - e.at < ACTIVE_TTL }

  /** OnWANSolicit: the reply if any, and whether the LANs are to be probed. */
  function OnWanSolicit(s: State, now: int, target: Addr, solicitor: Addr): (State, Option<Reply>, bool) {
    if target in s.active && Fresh(s.active[target], now) then
      (s, Some(Reply(target, solicitor, s.active[target].iface)), false)
    else if target in s.pending then
      (s.(pending := s.pending[target := s.pending[target].(solicitor := solicitor)]), None, false)
    else
      (s.(pending := s.pending[target := Probe(1, now + RETRANS, solicitor)]), None, true)
  }

  /** OnLANAdvert: the reply if a probe was pending. */
  function OnLanAdvert(s: State, now: int, iface: Iface, target: Addr): (State, Option<Reply>) {
    if target !in s.pending then (s, None)
    else
      (State(s.pending - {target}, s.active[target := Entry(iface, now)]),
       Some(Reply(target, s.pending[target].solicitor, iface)))
  }

  predicate Due(p: Probe, now: int) { now >= p.next }

  predicate Exhausted(p: Probe, now: int) { Due(p, now) && p.attempts >= MAX_SOLICIT }

  function Again(p: Probe, now: int): Probe {
    if Due(p, now) then Probe(p.attempts + 1, now + RETRANS, p.solicitor) else p
  }

  function SweptPending(pending: map<Addr, Probe>, now: int): map<Addr, Probe> {
    map t | t in pending && !Exhausted(pending[t], now) :: Again(pending[t], now)
  }

  function SweptActive(active: map<Addr, Entry>, now: int): map<Addr, Entry> {
    map t | t in active && Fresh(active[t], now) :: active[t]
  }

  /** The targets Sweep probes again, gives up, and lets expire. */
  function Retransmitted(s: State, now: int): set<Addr> {
    set t | t in s.pending && Due(s.pending[t], now) && s.pending[t].attempts < MAX_SOLICIT
  }

  function GivenUp(s: State, now: int): set<Addr> {
    set t | t in s.pending && Exhausted(s.pending[t], now)
  }

  function ExpiredAt(s: State, now: int): set<Addr> {
    set t | t in s.active && !Fresh(s.active[t], now)
  }

  function Sweep(s: State, now: int): State {
    State(SweptPending(s.pending, now), SweptActive(s.active, now))
  }

  // ---------------------------------------------------------------- the object

  /** `ts` lists the set `s`, each member once. */
  ghost predicate Lists(ts: seq<Addr>, s: set<Addr>) {
    (forall t :: t in ts <==> t in s) && forall i, j :: 0 <= i < j < |ts| ==> ts[i] != ts[j]
  }

  lemma ListsMore(ts: seq<Addr>, s: set<Addr>, t: Addr)
    requires Lists(ts, s) && t !in s
    ensures Lists(ts + [t], s + {t})
  {
    var ts' := ts + [t];
    assert ts'[|ts|] == t;
    forall u
      ensures u in ts' <==> u in s + {t}
    {
      assert u in ts' <==> u in ts || u == t;
    }
    forall i, j | 0 <= i < j < |ts'|
      ensures ts'[i] != ts'[j]
    {
      assert ts'[i] in ts;
    }
  }

  /** What a loop over the keys of a map has listed of `all` when `todo` is still to come. */
  lemma ListsNext(ts: seq<Addr>, all: set<Addr>, todo: set<Addr>, t: Addr)
    requires Lists(ts, all - todo) && t in todo
    ensures Lists(if t in all then ts + [t] else ts, all - (todo - {t}))
  {
    if t in all {
      ListsMore(ts, all - todo, t);
      assert all - (todo - {t}) == (all - todo) + {t};
    } else {
      assert all - (todo - {t}) == all - todo;
    }
  }

  /** The probes, with those in `todo` not yet looked at. */
  ghost predicate PartlySwept(was: map<Addr, Probe>, now: int, todo: set<Addr>, cur: map<Addr, Probe>) {
    && (forall t :: t in cur <==> t in was && (t in todo || !Exhausted(was[t], now)))
    && (forall t :: t in cur ==> cur[t] == if t in todo then was[t] else Again(was[t], now))
  }

  lemma SweptNext(was: map<Addr, Probe>, now: int, todo: set<Addr>, cur: map<Addr, Probe>, t: Addr)
    requires PartlySwept(was, now, todo, cur) && t in todo && t in was
    ensures PartlySwept(was, now, todo - {t}, if Exhausted(was[t], now) then cur - {t} else cur[t := Again(was[t], now)])
  {
  }

  class NdState {
    var pending: map<Addr, Probe>
    var active: map<Addr, Entry>

    ghost function View(): State
      reads this
    {
      State(pending, active)
    }

    constructor ()
      ensures View() == State(map[], map[])
    {
      pending, active := map[], map[];
    }

    method OnWANSolicit(now: int, target: Addr, solicitor: Addr) returns (reply: Option<Reply>, probe: bool)
      modifies this
      ensures (View(), reply, probe) == OnWanSolicit(old(View()), now, target, solicitor)
    {
      if target in active && now - active[target].at < ACTIVE_TTL {
        return Some(Reply(target, solicitor, active[target].iface)), false;
      }
      if target in pending {
        pending := pending[target := pending[target].(solicitor := solicitor)];
        return None, false;
      }
      pending := pending[target := Probe(1, now + RETRANS, solicitor)];
      return None, true;
    }

    method OnLANAdvert(now: int, iface: Iface, target: Addr) returns (reply: Option<Reply>)
      modifies this
      ensures (View(), reply) == OnLanAdvert(old(View()), now, iface, target)
    {
      if target !in pending {
        return None;
      }
      var p := pending[target];
      pending := pending - {target};
      active := active[target := Entry(iface, now)];
      return Some(Reply(target, p.solicitor, iface));
    }

    /** The first loop of Sweep, in whatever order. */
    method SweepPending(now: int) returns (retransmit: seq<Addr>, gaveUp: seq<Addr>)
      modifies this`pending
      ensures pending == SweptPending(old(pending), now)
      ensures Lists(retransmit, Retransmitted(old(View()), now)) && Lists(gaveUp, GivenUp(old(View()), now))
    {
      ghost var s := View();
      var todo := pending.Keys;
      retransmit, gaveUp := [], [];
      while todo != {}
        invariant todo <= s.pending.Keys && PartlySwept(s.pending, now, todo, pending)
        invariant Lists(retransmit, Retransmitted(s, now) - todo)
        invariant Lists(gaveUp, GivenUp(s, now) - todo)
        decreases |todo|
      {
        var target :| target in todo;
        SweptNext(s.pending, now, todo, pending, target);
        ListsNext(retransmit, Retransmitted(s, now), todo, target);
        ListsNext(gaveUp, GivenUp(s, now), todo, target);
        var p := pending[target];
        todo := todo - {target};
        if now < p.next {
          assert pending[target := p] == pending;
          continue;
        }
        if p.attempts >= MAX_SOLICIT {
          pending := pending - {target};
          gaveUp := gaveUp + [target];
          continue;
        }
        pending := pending[target := Probe(p.attempts + 1, now + RETRANS, p.solicitor)];
        retransmit := retransmit + [target];
      }
      assert Retransmitted(s, now) - {} == Retransmitted(s, now) && GivenUp(s, now) - {} == GivenUp(s, now);
    }

    /** The second. */
    method SweepActive(now: int) returns (expired: seq<Addr>)
      modifies this`active
      ensures active == SweptActive(old(active), now)
      ensures Lists(expired, ExpiredAt(old(View()), now))
    {
      ghost var s := View();
      var todo := active.Keys;
      expired := [];
      while todo != {}
        invariant todo <= s.active.Keys
        invariant Lists(expired, ExpiredAt(s, now) - todo)
        invariant forall t :: t in active <==> t in s.active && (t in todo || Fresh(s.active[t], now))
        invariant forall t :: t in active ==> active[t] == s.active[t]
        decreases |todo|
      {
        var target :| target in todo;
        ListsNext(expired, ExpiredAt(s, now), todo, target);
        todo := todo - {target};
        if now - active[target].at >= ACTIVE_TTL {
          active := active - {target};
          expired := expired + [target];
        }
      }
      assert ExpiredAt(s, now) - {} == ExpiredAt(s, now);
    }

    method SweepAll(now: int) returns (retransmit: seq<Addr>, gaveUp: seq<Addr>, expired: seq<Addr>)
      modifies this
      ensures View() == Sweep(old(View()), now)
      ensures Lists(retransmit, Retransmitted(old(View()), now)) && Lists(gaveUp, GivenUp(old(View()), now))
      ensures Lists(expired, ExpiredAt(old(View()), now))
    {
      retransmit, gaveUp := SweepPending(now);
      expired := SweepActive(now);
    }
  }
}
