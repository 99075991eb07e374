/** Softwire path MTUs learned from ICMPv6 Packet Too Big (section 4 of RFC 8201), one per slot. */
module PathMtu {
  import opened Wrappers
  import opened Addresses
  import opened Datapath

  const EXPIRY := 600_000_000_000
  const IPV6_MIN_MTU := 1280

  function Floored(mtu: nat): nat {
    if mtu < IPV6_MIN_MTU then IPV6_MIN_MTU else mtu
  }

  /** learn_tunnel_pmtu: a smaller MTU is always taken, another once the reading is old. */
  function Learn(r: Reading, mtu: nat, now: nat): Reading {
    if r.updated != 0 && Floored(mtu) >= r.mtu && r.updated <= now && now - r.updated < EXPIRY then r
    else Reading(Floored(mtu), now)
  }

  /** tunnel_pmtu_for: the reading, or 0 for none. An age taken modulo 2^64 is too old for a reading
      stamped after `now`. */
  function PmtuFor(r: Reading, now: nat): nat {
    if r.updated == 0 || r.updated > now || now - r.updated > EXPIRY then 0 else r.mtu
  }

  /** find_dslite_local_slot: the first valid slot of the pair that was quoted. */
  function LocalSlot(hops: seq<NextHop>, quoted: Endpoints, errorDst: Addr): (r: Option<Slot>)
    requires |hops| == NUM_NEXT_HOPS
    ensures r.Some? ==> hops[r.value] == NextHop(true, quoted) && quoted.b4 == errorDst
    ensures r.None? && quoted.b4 == errorDst ==> forall s: Slot :: hops[s] != NextHop(true, quoted)
  {
    if hops[0] == NextHop(true, quoted) && errorDst == quoted.b4 then Some(0)
    else if hops[1] == NextHop(true, quoted) && errorDst == quoted.b4 then Some(1)
    else None
  }

  // ---------------------------------------------------------------- runs

  /** A report taken into account: its floored MTU, and when. */
  datatype Told = Told(mtu: nat, at: nat)

  /** The maps; for each slot the pair its reading was learned for, and the reports since the reading
      was last cleared; and the clock. */
  datatype Learned = Learned(maps: Maps, owner: seq<Endpoints>, since: seq<seq<Told>>, clock: nat)

  datatype Step = Wrote(w: Write) | TooBig(quoted: Endpoints, errorDst: Addr, mtu: nat, at: nat)

  predicate Shaped(l: Learned) {
    && |l.maps.hops| == NUM_NEXT_HOPS && |l.maps.pmtus| == NUM_NEXT_HOPS
    && |l.owner| == NUM_NEXT_HOPS && |l.since| == NUM_NEXT_HOPS
  }

  /** The kernel's clock does not run backwards, and is not zero. */
  predicate Enabled(l: Learned, step: Step) {
    step.TooBig? ==> l.clock <= step.at && step.at > 0
  }

  function Next(l: Learned, step: Step): (r: Learned)
    requires Shaped(l)
    ensures Shaped(r)
  {
    match step
    case Wrote(w) =>
      var l' := l.(maps := Apply(l.maps, w));
      if w.ClearPmtu? then l'.(since := l.since[w.slot := []]) else l'
    case TooBig(quoted, errorDst, mtu, at) =>
      var slot := LocalSlot(l.maps.hops, quoted, errorDst);
      if slot.None? then l.(clock := at)
      else
        var s := slot.value;
        var r := Learn(l.maps.pmtus[s], mtu, at);
        l.(maps := l.maps.(pmtus := l.maps.pmtus[s := r]),
           owner := if r == l.maps.pmtus[s] then l.owner else l.owner[s := quoted],
           since := l.since[s := l.since[s] + [Told(Floored(mtu), at)]],
           clock := at)
  }

  /** A reading is a report, the least of those since its stamp. */
  ghost predicate RightReading(r: Reading, since: seq<Told>, clock: nat) {
    && (r.updated == 0 <==> since == [])
    && (r.updated != 0 ==>
          && r.mtu >= IPV6_MIN_MTU && r.updated <= clock && Told(r.mtu, r.updated) in since
          && (forall t :: t in since && t.at >= r.updated ==> r.mtu <= t.mtu)
          && (forall t :: t in since ==> t.at < r.updated + EXPIRY))
    && forall t :: t in since ==> t.at <= clock
  }

  ghost predicate Inv(l: Learned) {
    Shaped(l) && forall s: Slot :: RightReading(l.maps.pmtus[s], l.since[s], l.clock)
  }

  lemma ReportKeeps(r: Reading, since: seq<Told>, clock: nat, mtu: nat, at: nat)
    requires RightReading(r, since, clock) && clock <= at && at > 0
    ensures RightReading(Learn(r, mtu, at), since + [Told(Floored(mtu), at)], at)
  {
    var t := Told(Floored(mtu), at);
    var since' := since + [t];
    assert since'[|since|] == t;
    assert forall u :: u in since' <==> u in since || u == t;
  }

  lemma InvStep(l: Learned, step: Step)
    requires Inv(l) && Enabled(l, step)
    ensures Inv(Next(l, step))
  {
    if step.TooBig? {
      var slot := LocalSlot(l.maps.hops, step.quoted, step.errorDst);
      if slot.Some? {
        ReportKeeps(l.maps.pmtus[slot.value], l.since[slot.value], l.clock, step.mtu, step.at);
      }
    }
  }

  /** A reading rises only when it is at least 600 s old, or through a clear. */
  lemma RisesOnlyWhenOld(l: Learned, step: Step, s: Slot)
    requires Inv(l) && Enabled(l, step)
    requires var r, r' := l.maps.pmtus[s], Next(l, step).maps.pmtus[s]; r.updated != 0 && (r'.updated == 0 || r'.mtu > r.mtu)
    ensures step == Wrote(ClearPmtu(s)) || (step.TooBig? && step.at - l.maps.pmtus[s].updated >= EXPIRY)
  {
  }

  datatype Trace = Trace(states: seq<Learned>, steps: seq<Step>)

  ghost predicate Link(tr: Trace, i: nat)
    requires |tr.states| == |tr.steps| + 1 && i < |tr.steps|
  {
    Shaped(tr.states[i]) && Enabled(tr.states[i], tr.steps[i]) && tr.states[i + 1] == Next(tr.states[i], tr.steps[i])
  }

  /** Any run from empty maps: any writes of the control plane, any reports. */
  ghost predicate IsTrace(tr: Trace) {
    && |tr.states| == |tr.steps| + 1
    && Shaped(tr.states[0])
    && (forall s: Slot :: tr.states[0].maps.pmtus[s] == NOTHING_LEARNED && tr.states[0].since[s] == [])
    && forall i :: 0 <= i < |tr.steps| ==> Link(tr, i)
  }

  lemma {:induction false} Reachable(tr: Trace, i: nat)
    requires IsTrace(tr) && i < |tr.states|
    ensures Inv(tr.states[i])
  {
    if i > 0 {
      var j := i - 1;
      Reachable(tr, j);
      assert Link(tr, j);
      InvStep(tr.states[j], tr.steps[j]);
    }
  }

  /** At every moment of every run, the MTU encap reads for a slot is none, or at least 1280 and no
      larger than any report received since its stamp. */
  lemma ReadingInForce(tr: Trace, i: nat, l: Learned, s: Slot, now: nat)
    requires IsTrace(tr) && i < |tr.states| && l == tr.states[i] && Shaped(l) && PmtuFor(l.maps.pmtus[s], now) != 0
    ensures PmtuFor(l.maps.pmtus[s], now) >= IPV6_MIN_MTU
    ensures Told(PmtuFor(l.maps.pmtus[s], now), l.maps.pmtus[s].updated) in l.since[s]
    ensures forall t :: t in l.since[s] && t.at >= l.maps.pmtus[s].updated ==> PmtuFor(l.maps.pmtus[s], now) <= t.mtu
  {
    Reachable(tr, i);
    assert RightReading(l.maps.pmtus[s], l.since[s], l.clock);
  }

  // ---------------------------------------------------------------- whose reading it is

  /** The reading of `s`, if any, was learned for the pair now in it. */
  predicate Belongs(l: Learned, s: Slot)
    requires Shaped(l)
  {
    l.maps.pmtus[s].updated != 0 ==> l.maps.hops[s] == NextHop(true, l.owner[s])
  }

  /** It stops being so exactly when another pair is put into a slot that has a reading. */
  lemma MisplacedExactly(l: Learned, step: Step, s: Slot)
    requires Shaped(l) && Enabled(l, step) && Belongs(l, s)
    ensures !Belongs(Next(l, step), s)
            <==> && step.Wrote? && step.w.PutHop? && step.w.slot == s
                 && l.maps.pmtus[s].updated != 0 && step.w.nh != l.maps.hops[s]
  {
  }

  /** Step `k` is a report taken as the reading of `s`. */
  ghost predicate SetsAt(tr: Trace, k: nat, s: Slot)
    requires |tr.states| == |tr.steps| + 1 && k < |tr.steps|
  {
    var l, step := tr.states[k], tr.steps[k];
    && Shaped(l) && step.TooBig? && LocalSlot(l.maps.hops, step.quoted, step.errorDst) == Some(s)
    && Learn(l.maps.pmtus[s], step.mtu, step.at) != l.maps.pmtus[s]
  }

  predicate ClearsAt(tr: Trace, k: nat, s: Slot)
    requires k < |tr.steps|
  {
    tr.steps[k] == Wrote(ClearPmtu(s))
  }

  predicate PutsAt(tr: Trace, j: nat, s: Slot)
    requires j < |tr.steps|
  {
    tr.steps[j].Wrote? && tr.steps[j].w.PutHop? && tr.steps[j].w.slot == s
  }

  /** Step `k` is the last before step `i` to have set the reading of `s`, which was not cleared since. */
  ghost predicate LastSet(tr: Trace, i: nat, k: nat, s: Slot)
    requires |tr.states| == |tr.steps| + 1 && i <= |tr.steps|
  {
    k < i && SetsAt(tr, k, s) && forall l :: k < l < i ==> !SetsAt(tr, l, s) && !ClearsAt(tr, l, s)
  }

  ghost predicate LastPut(tr: Trace, i: nat, j: nat, s: Slot)
    requires i <= |tr.steps|
  {
    j < i && PutsAt(tr, j, s) && forall l :: j < l < i ==> !PutsAt(tr, l, s)
  }

  /** The reading of `s` was set by a report about one pair, and another was put there since. */
  ghost predicate Stale(tr: Trace, i: nat, k: nat, j: nat, s: Slot)
    requires |tr.states| == |tr.steps| + 1 && i <= |tr.steps|
  {
    LastSet(tr, i, k, s) && LastPut(tr, i, j, s) && k < j && tr.steps[j].w.nh != NextHop(true, tr.steps[k].quoted)
  }

  lemma {:induction false} ShapedAt(tr: Trace, i: nat)
    requires IsTrace(tr) && i < |tr.states|
    ensures Shaped(tr.states[i])
  {
    if i > 0 {
      var j := i - 1;
      assert Link(tr, j);
    }
  }

  /** A slot with a reading has it from a report. */
  lemma {:induction false} HasSet(tr: Trace, i: nat, s: Slot) returns (k: nat)
    requires IsTrace(tr) && i < |tr.states| && Shaped(tr.states[i]) && tr.states[i].maps.pmtus[s].updated != 0
    ensures LastSet(tr, i, k, s)
  {
    var p := i - 1;
    assert Link(tr, p);
    if SetsAt(tr, p, s) {
      k := p;
    } else {
      k := HasSet(tr, p, s);
    }
  }

  /** ... and counts as learned for the pair that report was about. */
  lemma {:induction false} OwnerIs(tr: Trace, i: nat, k: nat, s: Slot)
    requires IsTrace(tr) && i < |tr.states| && LastSet(tr, i, k, s) && Shaped(tr.states[i])
    ensures tr.states[i].maps.pmtus[s].updated != 0 && tr.states[i].owner[s] == tr.steps[k].quoted
  {
    var p := i - 1;
    assert Link(tr, p);
    if p > k {
      OwnerIs(tr, p, k, s);
      assert !SetsAt(tr, p, s) && !ClearsAt(tr, p, s);
    }
  }

  /** What is in the slot since a report about its pair: that pair, or what was last put there. */
  lemma {:induction false} PairSince(tr: Trace, i: nat, k: nat, s: Slot)
    requires IsTrace(tr) && k < i < |tr.states| && SetsAt(tr, k, s) && Shaped(tr.states[i])
    ensures (NonePut(tr, k, i, s) && tr.states[i].maps.hops[s] == NextHop(true, tr.steps[k].quoted))
            || (exists j :: k < j && LastPut(tr, i, j, s) && tr.states[i].maps.hops[s] == tr.steps[j].w.nh)
  {
    var p := i - 1;
    assert Link(tr, p);
    if p > k {
      PairSince(tr, p, k, s);
      if PutsAt(tr, p, s) {
        assert LastPut(tr, i, p, s);
      } else {
        HopsKept(tr.states[p], tr.steps[p], s);
        if j :| k < j && LastPut(tr, p, j, s) && tr.states[p].maps.hops[s] == tr.steps[j].w.nh {
          assert LastPut(tr, i, j, s);
        }
      }
    }
  }

  ghost predicate NonePut(tr: Trace, k: nat, i: nat, s: Slot)
    requires i <= |tr.steps|
  {
    forall l :: k < l < i ==> !PutsAt(tr, l, s)
  }

  lemma HopsKept(l: Learned, step: Step, s: Slot)
    requires Shaped(l) && !(step.Wrote? && step.w.PutHop? && step.w.slot == s)
    ensures Next(l, step).maps.hops[s] == l.maps.hops[s]
  {
  }

  /** In every run, with reports between any two writes: a reading is not that of the pair in its slot exactly
      when that pair was put there after the last report taken as the reading, which was about another,
      and the reading was not cleared since. */
  lemma StaleExactly(tr: Trace, i: nat, s: Slot)
    requires IsTrace(tr) && i < |tr.states|
    ensures Shaped(tr.states[i])
    ensures !Belongs(tr.states[i], s) <==> exists k, j :: Stale(tr, i, k, j, s)
  {
    ShapedAt(tr, i);
    if !Belongs(tr.states[i], s) {
      var k := HasSet(tr, i, s);
      OwnerIs(tr, i, k, s);
      PairSince(tr, i, k, s);
      var j :| k < j && LastPut(tr, i, j, s) && tr.states[i].maps.hops[s] == tr.steps[j].w.nh;
      assert Stale(tr, i, k, j, s);
    }
    if k, j :| Stale(tr, i, k, j, s) {
      OwnerIs(tr, i, k, s);
      PairSince(tr, i, k, s);
    }
  }

  function Run(l: Learned, steps: seq<Step>): (r: Learned)
    requires Shaped(l)
    ensures Shaped(r)
    decreases |steps|
  {
    if steps == [] then l else Run(Next(l, steps[0]), steps[1..])
  }

  lemma {:induction false} RunAppend(l: Learned, us: seq<Step>, vs: seq<Step>)
    requires Shaped(l)
    ensures Run(l, us + vs) == Run(Run(l, us), vs)
    decreases |us|
  {
    if us == [] {
      assert us + vs == vs;
    } else {
      assert (us + vs)[1..] == us[1..] + vs;
      RunAppend(Next(l, us[0]), us[1..], vs);
    }
  }

  predicate Reports(steps: seq<Step>) {
    forall i :: 0 <= i < |steps| ==> steps[i].TooBig? && steps[i].at > 0
  }

  /** One of the reports is about the pair in `s`. */
  ghost predicate Hits(hops: seq<NextHop>, steps: seq<Step>, s: Slot)
    requires |hops| == NUM_NEXT_HOPS && Reports(steps)
  {
    exists i :: 0 <= i < |steps| && LocalSlot(hops, steps[i].quoted, steps[i].errorDst) == Some(s)
  }

  /** Reports alone: a slot without a reading gets one exactly when one of them hits it; pairs stay. */
  lemma {:induction false} ReportsLearn(l: Learned, steps: seq<Step>, s: Slot)
    requires Shaped(l) && Reports(steps)
    ensures Run(l, steps).maps.hops == l.maps.hops
    ensures Run(l, steps).maps.pmtus[s].updated != 0 <==> l.maps.pmtus[s].updated != 0 || Hits(l.maps.hops, steps, s)
    decreases |steps|
  {
    if steps != [] {
      var l1 := Next(l, steps[0]);
      ReportsLearn(l1, steps[1..], s);
      assert l1.maps.hops == l.maps.hops;
      HitsSplit(l.maps.hops, steps, s);
    }
  }

  lemma HitsSplit(hops: seq<NextHop>, steps: seq<Step>, s: Slot)
    requires |hops| == NUM_NEXT_HOPS && Reports(steps) && steps != []
    ensures Hits(hops, steps, s)
            <==> LocalSlot(hops, steps[0].quoted, steps[0].errorDst) == Some(s) || Hits(hops, steps[1..], s)
  {
    if Hits(hops, steps[1..], s) {
      var i :| 0 <= i < |steps[1..]| && LocalSlot(hops, steps[1..][i].quoted, steps[1..][i].errorDst) == Some(s);
      assert steps[i + 1] == steps[1..][i];
    }
    if Hits(hops, steps, s) {
      var i :| 0 <= i < |steps| && LocalSlot(hops, steps[i].quoted, steps[i].errorDst) == Some(s);
      assert i > 0 ==> steps[i] == steps[1..][i - 1];
    }
  }

  /** writeNextHop with reports between its two writes: no reading of the slot's former pair is carried
      over to the new one exactly when none of them hits the slot, or the pair is the same. */
  lemma RewriteExactly(l: Learned, s: Slot, to: Endpoints, between: seq<Step>, l': Learned)
    requires Shaped(l) && Reports(between)
    requires l' == Next(Run(Next(l, Wrote(ClearPmtu(s))), between), Wrote(PutHop(s, NextHop(true, to))))
    ensures l'.maps.pmtus[s].updated == 0 <==> !Hits(l.maps.hops, between, s)
    ensures Belongs(l', s) <==> !Hits(l.maps.hops, between, s) || l.maps.hops[s] == NextHop(true, to)
  {
    var l1 := Next(l, Wrote(ClearPmtu(s)));
    ReportsLearn(l1, between, s);
    ReportsBelong(l1, between, s);
  }

  lemma {:induction false} ReportsBelong(l: Learned, steps: seq<Step>, s: Slot)
    requires Shaped(l) && Reports(steps) && Belongs(l, s)
    ensures Belongs(Run(l, steps), s)
    decreases |steps|
  {
    if steps != [] {
      ReportsBelong(Next(l, steps[0]), steps[1..], s);
    }
  }

  /** clearNextHop with reports between its two writes leaves no reading. */
  lemma RetireForgets(l: Learned, s: Slot, between: seq<Step>, l': Learned)
    requires Shaped(l) && Reports(between)
    requires l' == Next(Run(Next(l, Wrote(PutHop(s, CLEARED))), between), Wrote(ClearPmtu(s)))
    ensures l'.maps.pmtus[s].updated == 0 && l'.maps.hops[s] == CLEARED
  {
    ReportsLearn(Next(l, Wrote(PutHop(s, CLEARED))), between, s);
  }

  // ---------------------------------------------------------------- whole operations

  function Writes(ws: seq<Write>): (r: seq<Step>)
    ensures |r| == |ws| && forall i :: 0 <= i < |ws| ==> r[i] == Wrote(ws[i])
  {
    seq(|ws|, i requires 0 <= i < |ws| => Wrote(ws[i]))
  }

  ghost predicate AllBelong(l: Learned) {
    Shaped(l) && forall s: Slot :: Belongs(l, s)
  }

  lemma RunOne(l: Learned, w: Write)
    requires Shaped(l)
    ensures Run(l, Writes([w])) == Next(l, Wrote(w))
  {
    var ss := Writes([w]);
    assert ss[1..] == [];
  }

  lemma RunTwo(l: Learned, a: Write, b: Write)
    requires Shaped(l)
    ensures Run(l, Writes([a, b])) == Next(Next(l, Wrote(a)), Wrote(b))
  {
    var ss := Writes([a, b]);
    assert ss[1..] == Writes([b]);
    RunOne(Next(l, Wrote(a)), b);
  }

  lemma RunThree(l: Learned, a: Write, b: Write, c: Write)
    requires Shaped(l)
    ensures Run(l, Writes([a, b, c])) == Next(Next(Next(l, Wrote(a)), Wrote(b)), Wrote(c))
  {
    var ss := Writes([a, b, c]);
    assert ss[1..] == Writes([b, c]);
    RunTwo(Next(l, Wrote(a)), b, c);
  }

  lemma RunWrites(l: Learned, us: seq<Write>, vs: seq<Write>)
    requires Shaped(l)
    ensures Run(l, Writes(us + vs)) == Run(Run(l, Writes(us)), Writes(vs))
  {
    assert Writes(us + vs) == Writes(us) + Writes(vs);
    RunAppend(l, Writes(us), Writes(vs));
  }

  lemma PutBelongs(l: Learned, s: Slot, nh: NextHop, c: Ctrl)
    requires AllBelong(l)
    ensures AllBelong(Run(l, Writes([ClearPmtu(s), PutHop(s, nh), PutCtrl(c)])))
    ensures AllBelong(Run(l, Writes([PutCtrl(c), PutHop(s, nh), ClearPmtu(s)])))
  {
    RunThree(l, ClearPmtu(s), PutHop(s, nh), PutCtrl(c));
    RunThree(l, PutCtrl(c), PutHop(s, nh), ClearPmtu(s));
    var u := Run(l, Writes([ClearPmtu(s), PutHop(s, nh), PutCtrl(c)]));
    var v := Run(l, Writes([PutCtrl(c), PutHop(s, nh), ClearPmtu(s)]));
    forall t: Slot
      ensures Belongs(u, t) && Belongs(v, t)
    {
      assert Belongs(l, t);
    }
  }

  lemma EndingBelongs(l: Learned)
    requires AllBelong(l) && WellFormed(l.maps)
    ensures AllBelong(Run(l, Writes(EndingPlan(l.maps))))
  {
    var m := l.maps;
    if m.ctrl.state == PRIMING {
      PutBelongs(l, Other(m.ctrl.activeSlot), CLEARED, Ctrl(m.ctrl.activeSlot, m.ctrl.activeSlot, STEADY, m.ctrl.epoch));
    } else if m.ctrl.state == DRAINING {
      PutBelongs(l, m.ctrl.oldSlot, CLEARED, Ctrl(m.ctrl.activeSlot, m.ctrl.activeSlot, STEADY, m.ctrl.epoch));
    }
  }

  lemma BeginBelongs(l: Learned, to: Endpoints)
    requires AllBelong(l) && WellFormed(l.maps) && BeginPlan(l.maps, to).Some?
    ensures AllBelong(Run(l, Writes(BeginPlan(l.maps, to).value)))
  {
    var m := l.maps;
    var free := Other(m.ctrl.activeSlot);
    var c := Ctrl(m.ctrl.activeSlot, m.ctrl.activeSlot, PRIMING, (m.ctrl.epoch + 1) % 256);
    assert BeginPlan(m, to).value == [ClearPmtu(free), PutHop(free, NextHop(true, to)), PutCtrl(c)];
    PutBelongs(l, free, NextHop(true, to), c);
  }

  lemma CtrlBelongs(l: Learned, c: Ctrl)
    requires AllBelong(l)
    ensures AllBelong(Run(l, Writes([PutCtrl(c)])))
  {
    RunOne(l, PutCtrl(c));
    var l' := Next(l, Wrote(PutCtrl(c)));
    forall s: Slot
      ensures Belongs(l', s)
    {
      assert Belongs(l, s);
    }
  }

  lemma SwitchBelongs(l: Learned, to: Endpoints)
    requires AllBelong(l) && WellFormed(l.maps) && SwitchPlan(l.maps, to).Some?
    ensures AllBelong(Run(l, Writes(SwitchPlan(l.maps, to).value)))
  {
    var ending := EndingPlan(l.maps);
    EndingSettles(l.maps);
    EndingBelongs(l);
    var c := ApplyAll(l.maps, ending);
    var free := Other(c.ctrl.activeSlot);
    var ws := [ClearPmtu(free), PutHop(free, NextHop(true, to)), PutCtrl(Ctrl(free, free, STEADY, c.ctrl.epoch))];
    assert SwitchPlan(l.maps, to).value == ending + ws;
    RunWrites(l, ending, ws);
    PutBelongs(Run(l, Writes(ending)), free, NextHop(true, to), Ctrl(free, free, STEADY, c.ctrl.epoch));
  }

  /** Every operation of the loader, with no report between its writes, leaves each reading with the pair
      it was learned for. */
  lemma OperationsBelong(l: Learned, to: Endpoints, ws: seq<Write>)
    requires AllBelong(l) && WellFormed(l.maps)
    requires Some(ws) in {BeginPlan(l.maps, to), CutoverPlan(l.maps), CompletePlan(l.maps), AbortPlan(l.maps),
                          SwitchPlan(l.maps, to)}
    ensures AllBelong(Run(l, Writes(ws)))
  {
    if BeginPlan(l.maps, to) == Some(ws) {
      BeginBelongs(l, to);
    } else if CutoverPlan(l.maps) == Some(ws) {
      CtrlBelongs(l, ws[0].c);
    } else if SwitchPlan(l.maps, to) == Some(ws) {
      SwitchBelongs(l, to);
    } else {
      EndingBelongs(l);
    }
  }

  /** ... and so does every report. */
  lemma ReportBelongs(l: Learned, step: Step)
    requires AllBelong(l) && step.TooBig? && Enabled(l, step)
    ensures AllBelong(Next(l, step))
  {
    forall s: Slot
      ensures Belongs(Next(l, step), s)
    {
      MisplacedExactly(l, step, s);
    }
  }

  /** SwitchAFTR leaves the former pair valid in its slot. */
  lemma FormerPairStays(m: Maps, to: Endpoints)
    requires WellFormed(m) && m.ctrl.state == STEADY && SwitchPlan(m, to).Some?
    ensures var r := ApplyAll(m, SwitchPlan(m, to).value);
            && WellFormed(r) && r.ctrl.state == STEADY && r.ctrl.activeSlot == Other(m.ctrl.activeSlot)
            && r.hops[m.ctrl.activeSlot] == m.hops[m.ctrl.activeSlot]
  {
    EndingSettles(m);
    var free := Other(m.ctrl.activeSlot);
    var ws := [ClearPmtu(free), PutHop(free, NextHop(true, to)), PutCtrl(Ctrl(free, free, STEADY, m.ctrl.epoch))];
    assert SwitchPlan(m, to).value == [] + ws == ws;
    ApplyThree(m, ws[0], ws[1], ws[2]);
  }

  /** Such a case: after a hard switch away from `a`, a migration to `b` rewrites the slot of `a`, and a
      report about `a` comes between the two writes. The slot of `b` then has the path MTU of `a`. */
  lemma FormerPairsReading(l: Learned, a: Endpoints, b: Endpoints, s: Slot, mtu: nat, at: nat)
    requires Shaped(l) && l.maps.hops[s] == NextHop(true, a) && a != b && at > 0
    requires l.maps.hops[Other(s)] != NextHop(true, a)
    ensures var l' := Next(Run(Next(l, Wrote(ClearPmtu(s))), [TooBig(a, a.b4, mtu, at)]), Wrote(PutHop(s, NextHop(true, b))));
            && l'.maps.hops[s] == NextHop(true, b) && l'.maps.pmtus[s] == Reading(Floored(mtu), at)
            && l'.owner[s] == a && !Belongs(l', s)
  {
    var l1 := Next(l, Wrote(ClearPmtu(s)));
    var r := TooBig(a, a.b4, mtu, at);
    assert [r][1..] == [];
    assert Run(l1, [r]) == Next(l1, r);
    assert LocalSlot(l1.maps.hops, a, a.b4) == Some(s);
  }

  // ---------------------------------------------------------------- runs of whole operations

  datatype Event = Operation(to: Endpoints, ws: seq<Write>) | Report(step: Step)

  /** An operation of the loader the maps let through, or a report. */
  ghost predicate Possible(l: Learned, e: Event)
    requires Shaped(l) && WellFormed(l.maps)
  {
    match e
    case Operation(to, ws) =>
      Some(ws) in {StartupPlan(l.maps, to), BeginPlan(l.maps, to), CutoverPlan(l.maps), CompletePlan(l.maps),
                   AbortPlan(l.maps), SwitchPlan(l.maps, to)}
    case Report(step) => step.TooBig? && Enabled(l, step)
  }

  ghost function After(l: Learned, e: Event): (r: Learned)
    requires Shaped(l)
    ensures Shaped(r)
  {
    match e
    case Operation(_, ws) => Run(l, Writes(ws))
    case Report(step) => Next(l, step)
  }

  /** The maps as the kernel creates them. */
  const FRESH_MAPS := Maps(Ctrl(0, 0, STEADY, 0), [CLEARED, CLEARED], [NOTHING_LEARNED, NOTHING_LEARNED])

  ghost predicate Happens(l: Learned, e: Event, l': Learned) {
    Shaped(l) && WellFormed(l.maps) && Possible(l, e) && l' == After(l, e)
  }

  /** A run: from fresh maps, startup, operations and reports in any order the loader lets through. */
  ghost predicate IsRun(states: seq<Learned>, events: seq<Event>) {
    && |states| == |events| + 1 && Shaped(states[0]) && states[0].maps == FRESH_MAPS
    && (forall s: Slot :: states[0].since[s] == [])
    && forall i :: 0 <= i < |events| && Shaped(states[i]) && WellFormed(states[i].maps) ==>
                     Happens(states[i], events[i], states[i + 1])
  }

  lemma {:induction false} RunMaps(l: Learned, ws: seq<Write>)
    requires Shaped(l)
    ensures Run(l, Writes(ws)).maps == ApplyAll(l.maps, ws)
    decreases |ws|
  {
    if ws != [] {
      assert Writes(ws)[1..] == Writes(ws[1..]);
      RunMaps(Next(l, Wrote(ws[0])), ws[1..]);
    }
  }

  lemma {:induction false} WellFormedAfter(m: Maps, ws: seq<Write>)
    requires WellFormed(m) && forall w :: w in ws ==> WellFormedWrite(w)
    ensures WellFormed(ApplyAll(m, ws))
    decreases |ws|
  {
    if ws != [] {
      assert ws[0] in ws;
      WellFormedAfter(Apply(m, ws[0]), ws[1..]);
    }
  }

  /** The writes of every operation name existing slots and states. */
  lemma PlansWellFormed(m: Maps, to: Endpoints, ws: seq<Write>)
    requires WellFormed(m)
    requires Some(ws) in {StartupPlan(m, to), BeginPlan(m, to), CutoverPlan(m), CompletePlan(m), AbortPlan(m), SwitchPlan(m, to)}
    ensures forall w :: w in ws ==> WellFormedWrite(w)
  {
    EndingSettles(m);
  }

  lemma StartupBelongs(l: Learned, to: Endpoints)
    requires AllBelong(l) && WellFormed(l.maps) && StartupPlan(l.maps, to).Some?
    ensures AllBelong(Run(l, Writes(StartupPlan(l.maps, to).value)))
  {
    var c := Ctrl(0, 0, STEADY, 0);
    assert StartupPlan(l.maps, to).value == [ClearPmtu(0), PutHop(0, NextHop(true, to)), PutCtrl(c)];
    PutBelongs(l, 0, NextHop(true, to), c);
  }

  lemma EventBelongs(l: Learned, e: Event)
    requires AllBelong(l) && WellFormed(l.maps) && Possible(l, e)
    ensures AllBelong(After(l, e)) && WellFormed(After(l, e).maps)
  {
    match e
    case Operation(to, ws) =>
      RunMaps(l, ws);
      PlansWellFormed(l.maps, to, ws);
      WellFormedAfter(l.maps, ws);
      if StartupPlan(l.maps, to) == Some(ws) {
        StartupBelongs(l, to);
      } else {
        OperationsBelong(l, to, ws);
      }
    case Report(step) =>
      ReportBelongs(l, step);
  }

  /** In every run each reading belongs to the pair now in its slot. */
  lemma {:induction false} ReadingsBelong(states: seq<Learned>, events: seq<Event>, i: nat)
    requires IsRun(states, events) && i < |states|
    ensures AllBelong(states[i]) && WellFormed(states[i].maps)
  {
    if i > 0 {
      var j := i - 1;
      ReadingsBelong(states, events, j);
      assert Happens(states[j], events[j], states[j + 1]);
      EventBelongs(states[j], events[j]);
    }
  }

  /** TunnelPMTU: the least of the readings in force. */
  method TunnelPMTU(pmtus: seq<Reading>, now: nat) returns (r: Option<nat>)
    ensures r.None? <==> forall i :: 0 <= i < |pmtus| ==> PmtuFor(pmtus[i], now) == 0
    ensures r.Some? ==> exists i :: 0 <= i < |pmtus| && PmtuFor(pmtus[i], now) == r.value
    ensures r.Some? ==> forall i :: 0 <= i < |pmtus| && PmtuFor(pmtus[i], now) != 0 ==> r.value <= PmtuFor(pmtus[i], now)
  {
    r := None;
    for slot := 0 to |pmtus|
      invariant r.None? <==> forall i :: 0 <= i < slot ==> PmtuFor(pmtus[i], now) == 0
      invariant r.Some? ==> exists i :: 0 <= i < slot && PmtuFor(pmtus[i], now) == r.value
      invariant r.Some? ==> forall i :: 0 <= i < slot && PmtuFor(pmtus[i], now) != 0 ==> r.value <= PmtuFor(pmtus[i], now)
    {
      var v := pmtus[slot];
      if v.updated == 0 || v.mtu == 0 {
        continue;
      }
      if v.updated > now || now - v.updated > EXPIRY {
        continue;
      }
      if r.None? || v.mtu < r.value {
        r := Some(v.mtu);
      }
    }
  }
}
