/** What holds in every run of the migration system. */
module MigrationTheorems {
  import opened Wrappers
  import opened Addresses
  import opened Datapath
  import opened FlowAffinity
  import opened Controlling
  import opened Serving
  import P = Protocol
  import Placement
  import opened Decisions
  import opened Migration

  /** A run: states linked by steps, from startup on `ends`. */
  ghost predicate Trace(c: Config, ends: Endpoints, states: seq<Sys>, steps: seq<Step>) {
    && |states| == |steps| + 1
    && Init(states[0], ends)
    && forall i :: 0 <= i < |steps| ==> Link(c, states[i], steps[i], states[i + 1])
  }

  ghost predicate Link(c: Config, s: Sys, step: Step, s': Sys) {
    WellFormed(s.m) && Enabled(s, step) && s' == Next(c, s, step)
  }

  lemma {:induction false} Reachable(c: Config, ends: Endpoints, states: seq<Sys>, steps: seq<Step>, i: nat)
    requires Trace(c, ends, states, steps) && i < |states|
    ensures Inv(states[i])
    decreases i
  {
    if i == 0 {
      InitInv(states[0], ends);
    } else {
      var j := i - 1;
      Reachable(c, ends, states, steps, j);
      LinkKeeps(c, states[j], steps[j], states[j + 1]);
    }
  }

  lemma LinkKeeps(c: Config, s: Sys, step: Step, s': Sys)
    requires Inv(s) && Link(c, s, step, s')
    ensures Inv(s')
  {
    InvStep(c, s, step);
  }

  /** Before step `i`: a BeginMigration has gone through, and since then no abort, completion, hard switch or
      recovery has, whoever asked for it. */
  ghost predicate Underway(states: seq<Sys>, steps: seq<Step>, i: nat)
    requires i <= |steps| < |states|
  {
    i > 0 && UnderwayBy(states[i - 1], steps[i - 1], states[i], Underway(states, steps, i - 1))
  }

  ghost predicate UnderwayBy(s: Sys, step: Step, s': Sys, was: bool) {
    if step.Start? && s.reqs != [] && s'.work.Busy? then UnderwayServing(s.reqs[0].req, s'.work.rep, was) else was
  }

  predicate UnderwayServing(req: Request, rep: Reply, was: bool) {
    if rep.ok && req.BeginReq? then true
    else if rep.ok && (req.AbortReq? || req.CompleteReq? || P.EndsAll(req)) then false
    else was
  }

  lemma ServeMigrates(sw: Sw, m: Maps, req: Request, env: Env)
    requires WellFormed(m)
    ensures var r := Serve(sw, m, req, env); r.sw.migrating == UnderwayServing(req, r.rep, sw.migrating)
  {
  }

  lemma MigratesLink(c: Config, s: Sys, step: Step, s': Sys)
    requires Link(c, s, step, s') && WellFormed(s'.m)
    ensures Abs(s').sw.migrating == UnderwayBy(s, step, s', Abs(s).sw.migrating)
  {
    if step.Start? {
      ServeMigrates(s.sw, s.m, s.reqs[0].req, EnvOf(s, step.readable, step.source));
    }
  }

  lemma {:induction false} MigratesExactly(c: Config, ends: Endpoints, states: seq<Sys>, steps: seq<Step>, i: nat)
    requires Trace(c, ends, states, steps) && i < |states|
    ensures WellFormed(states[i].m) && Abs(states[i]).sw.migrating == Underway(states, steps, i)
    decreases i
  {
    Reachable(c, ends, states, steps, i);
    if i > 0 {
      var j := i - 1;
      MigratesExactly(c, ends, states, steps, j);
      MigratesLink(c, states[j], steps[j], states[j + 1]);
    }
  }

  /** How the datapath is driven: Cutover and AbortMigration find PRIMING, GCFlowAffinity and
      CompleteMigration find DRAINING, and none of them is ever refused for the state it finds.
      BeginMigration finds STEADY, and with valid endpoints goes through, exactly when no migration is under
      way; one can be only while the controller is lost. */
  lemma DrivenInOrder(c: Config, ends: Endpoints, states: seq<Sys>, steps: seq<Step>, i: nat)
    requires Trace(c, ends, states, steps) && i < |steps| && steps[i].Start?
    ensures states[i].reqs != []
    ensures var s := states[i];
            var req := s.reqs[0].req;
            && WellFormed(s.m)
            && P.InOrder(req, s.m.ctrl.state, s.lost)
            && (req.BeginReq? ==> (s.m.ctrl.state == STEADY <==> !Underway(states, steps, i)))
            && (req.BeginReq? ==>
                  (BeginPlan(s.m, req.to).Some? <==> ValidEndpoints(req.to) && !Underway(states, steps, i)))
            && (req.BeginReq? && Underway(states, steps, i) ==> s.lost)
            && (req.CutoverReq? ==> CutoverPlan(s.m).Some?)
            && (req.AbortReq? ==> AbortPlan(s.m).Some?)
            && (req.CompleteReq? ==> CompletePlan(s.m).Some?)
  {
    MigratesExactly(c, ends, states, steps, i);
    Reachable(c, ends, states, steps, i);
    assert Link(c, states[i], steps[i], states[i + 1]);
    var s := states[i];
    AbsIdle(s);
    assert s.reqs[0] in s.reqs;
    if !P.IsSource(s.reqs[0]) {
      assert P.Ops(s.reqs)[0] == s.reqs[0];
    }
    if s.reqs[0].req.BeginReq? {
      BeginOutcome(s.m, s.reqs[0].req.to);
    }
  }

  /** Between requests the softwire is migrating exactly when the datapath is not in STEADY, and its
      active endpoints are those of the active slot. */
  lemma SoftwireAgrees(c: Config, ends: Endpoints, states: seq<Sys>, steps: seq<Step>, i: nat)
    requires Trace(c, ends, states, steps) && i < |states| && states[i].work == Idle
    ensures var s := states[i];
            && WellFormed(s.m)
            && (s.sw.migrating <==> s.m.ctrl.state != STEADY)
            && s.m.hops[s.m.ctrl.activeSlot] == NextHop(true, s.sw.active)
  {
    Reachable(c, ends, states, steps, i);
    AbsIdle(states[i]);
  }

  /** The endpoints the controller believes in use, in the phases it believes in any. */
  function Believed(ctl: P.Ctl): Option<Endpoints> {
    match ctl.phase
    case Steady => Some(Endpoints(ctl.data.b4, ctl.data.current.aftr))
    case Discovering => Some(Endpoints(ctl.data.b4, ctl.data.current.aftr))
    case Draining => Some(Endpoints(ctl.data.b4, ctl.data.next.aftr))
    case _ => None
  }

  /** Before step `i`: a cutover was carried out, and since then the controller has neither heard of the
      completion of its drain nor has a hard switch or a recovery gone through. */
  ghost predicate Moved(states: seq<Sys>, steps: seq<Step>, i: nat)
    requires i <= |steps| < |states|
  {
    i > 0 && MovedBy(states[i - 1], steps[i - 1], states[i], Moved(states, steps, i - 1))
  }

  ghost predicate MovedBy(s: Sys, step: Step, s': Sys, moved: bool) {
    if step.Start? && s.reqs != [] && s'.work.Busy? then Placement.MovedServing(s.reqs[0].req, s'.work.rep, moved)
    else Placement.MovedRunning(s.ctl.phase, s'.ctl.phase, moved)
  }

  lemma PlacedLink(c: Config, s: Sys, step: Step, s': Sys, moved: bool)
    requires Inv(s) && Inv(s') && Link(c, s, step, s') && Placement.Placed(Abs(s), moved)
    ensures Placement.Placed(Abs(s'), MovedBy(s, step, s', moved))
  {
    if step.Control? {
      PlacedControl(c, s, step.step, moved);
    } else if step.Start? {
      PlacedStart(c, s, step, moved);
    } else {
      QuietRefines(c, s, step);
    }
  }

  lemma PlacedControl(c: Config, s: Sys, p: P.Step, moved: bool)
    requires Inv(s) && Enabled(s, Control(p)) && WellFormed(Next(c, s, Control(p)).m) && Placement.Placed(Abs(s), moved)
    ensures var s' := Next(c, s, Control(p)); Placement.Placed(Abs(s'), MovedBy(s, Control(p), s', moved))
  {
    ControlRefines(c, s, p);
    Placement.PlacedStep(c, Abs(s), moved, p);
  }

  lemma StartMoves(c: Config, s: Sys, step: Step, moved: bool)
    requires WellFormed(s.m) && step.Start? && Enabled(s, step)
    ensures var p := P.Handle(EnvOf(s, step.readable, step.source));
            && P.Enabled(Raw(s), p)
            && MovedBy(s, step, Next(c, s, step), moved) == Placement.MovedAfter(c, Raw(s), moved, p)
  {
  }

  lemma PlacedStart(c: Config, s: Sys, step: Step, moved: bool)
    requires Inv(s) && step.Start? && Enabled(s, step) && WellFormed(Next(c, s, step).m) && Placement.Placed(Abs(s), moved)
    ensures var s' := Next(c, s, step); Placement.Placed(Abs(s'), MovedBy(s, step, s', moved))
  {
    var p := P.Handle(EnvOf(s, step.readable, step.source));
    var s', moved' := Next(c, s, step), MovedBy(s, step, Next(c, s, step), moved);
    AbsIdle(s);
    assert moved' == Placement.MovedAfter(c, Abs(s), moved, p) by { StartMoves(c, s, step, moved); }
    Placement.PlacedStep(c, Abs(s), moved, p);
    assert Abs(s') == P.Next(c, Abs(s), p) by { StartRefines(c, s, step.readable, step.source); }
  }

  lemma {:induction false} PlacedAt(c: Config, ends: Endpoints, states: seq<Sys>, steps: seq<Step>, i: nat)
    requires Trace(c, ends, states, steps) && i < |states|
    ensures Inv(states[i]) && Placement.Placed(Abs(states[i]), Moved(states, steps, i))
    decreases i
  {
    Reachable(c, ends, states, steps, i);
    if i == 0 {
      AbsIdle(states[0]);
      Placement.InitPlaced(Raw(states[0]), ends);
    } else {
      var j := i - 1;
      PlacedAt(c, ends, states, steps, j);
      PlacedLink(c, states[j], steps[j], states[j + 1], Moved(states, steps, j));
    }
  }

  /** They are in use, at every point between map writes, whatever answers of earlier generations arrive
      and however often the controller crashed: in a drain always, and otherwise exactly when no cutover
      is outstanding. The active slot leads where the softwire says in either case. */
  lemma EndpointsAgree(c: Config, ends: Endpoints, states: seq<Sys>, steps: seq<Step>, i: nat)
    requires Trace(c, ends, states, steps) && i < |states| && Believed(states[i].ctl).Some?
    ensures var s := states[i];
            && WellFormed(s.m)
            && s.m.hops[s.m.ctrl.activeSlot] == NextHop(true, s.sw.active)
            && (s.sw.active == Believed(s.ctl).value <==> s.ctl.phase == Draining || !Moved(states, steps, i))
  {
    PlacedAt(c, ends, states, steps, i);
    var s := states[i];
    if s.work.Busy? {
      BusyKeepsPlace(s);
      ActiveKept(s.m, s.work.writes);
    } else {
      AbsIdle(s);
    }
  }

  /** A cutover can be outstanding so only after a hard switch out of the migration was refused. */
  lemma OutstandingIsLost(c: Config, ends: Endpoints, states: seq<Sys>, steps: seq<Step>, i: nat)
    requires Trace(c, ends, states, steps) && i < |states| && Believed(states[i].ctl).Some?
    requires states[i].ctl.phase != Draining && Moved(states, steps, i)
    ensures states[i].lost
  {
    PlacedAt(c, ends, states, steps, i);
  }

  lemma BusyKeepsPlace(s: Sys)
    requires Inv(s) && s.work.Busy? && Believed(s.ctl).Some?
    ensures KeepsPlace(s.work.item.req)
  {
  }

  lemma {:induction false} ActiveKept(m: Maps, ws: seq<Write>)
    requires WellFormed(m) && KeepsActive(m, ws)
    ensures var r := ApplyAll(m, ws);
            r.ctrl.activeSlot == m.ctrl.activeSlot && r.hops[m.ctrl.activeSlot] == m.hops[m.ctrl.activeSlot]
    decreases |ws|
  {
    if ws != [] {
      assert ws[0] in ws;
      var m' := Apply(m, ws[0]);
      assert forall w :: w in ws[1..] ==> w in ws;
      ActiveKeptFrom(m', ws[1..], m.ctrl.activeSlot);
    }
  }

  lemma {:induction false} ActiveKeptFrom(m: Maps, ws: seq<Write>, active: Slot)
    requires |m.hops| == NUM_NEXT_HOPS && |m.pmtus| == NUM_NEXT_HOPS && m.ctrl.activeSlot == active
    requires forall w :: w in ws ==> (w.PutCtrl? ==> w.c.activeSlot == active) && (w.PutHop? ==> w.slot != active)
    ensures var r := ApplyAll(m, ws);
            r.ctrl.activeSlot == active && r.hops[active] == m.hops[active]
    decreases |ws|
  {
    if ws != [] {
      assert ws[0] in ws;
      assert forall w :: w in ws[1..] ==> w in ws;
      ActiveKeptFrom(Apply(m, ws[0]), ws[1..], active);
    }
  }

  /** At every point between map writes the active slot is valid, during a drain the old slot too
      and another one; and no write touches a slot a packet can resolve. */
  lemma SlotsSafe(c: Config, ends: Endpoints, states: seq<Sys>, steps: seq<Step>, i: nat)
    requires Trace(c, ends, states, steps) && i < |states|
    ensures Sound(states[i].m)
    ensures i < |steps| && steps[i].WriteOne? ==>
              states[i].work.Busy? && states[i].work.writes != [] && Harmless(states[i].m, states[i].work.writes[0])
  {
    Reachable(c, ends, states, steps, i);
    if i < |steps| {
      assert Link(c, states[i], steps[i], states[i + 1]);
    }
  }

  // ---------------------------------------------------------------- flows

  /** The flows recorded in the priming pass under way, less those collected since. */
  ghost function Pinned(h: History): set<FlowKey> {
    set f | f in h.stamp && h.stamp[f] == h.gen
  }

  /** With at most 255 passes since the last collection, the 8-bit epoch tells the pass. */
  lemma EpochTellsPass(c: Ctrl, t: Table, h: History)
    requires Stamped(c, t, h) && !h.overrun
    ensures Current(c, t) == Pinned(h)
  {
    forall f | f in t
      ensures t[f].epoch == c.epoch <==> h.stamp[f] == h.gen
    {
      if h.stamp[f] % 256 == h.gen % 256 {
        SameEpoch(h.stamp[f], h.gen);
      }
    }
  }

  /** A flow pinned is current, however many passes there were. */
  lemma PinnedIsCurrent(c: Ctrl, t: Table, h: History)
    requires Stamped(c, t, h)
    ensures Pinned(h) <= Current(c, t)
  {
  }

  /** The passes are a multiple of 256 apart. */
  predicate SameEpochOf(a: nat, b: nat) {
    (b - a) % 256 == 0
  }

  /** The flow was last recorded a multiple of 256 passes ago. */
  ghost predicate Marked(h: History, f: FlowKey) {
    f in h.stamp && SameEpochOf(h.stamp[f], h.gen)
  }

  /** What the 8-bit epoch tells: the pass, modulo 256. */
  lemma MarkedIsCurrent(c: Ctrl, t: Table, h: History, f: FlowKey)
    requires Stamped(c, t, h)
    ensures f in Current(c, t) <==> Marked(h, f)
  {
    if f in t {
      Congruence(h.stamp[f], h.gen);
    }
  }

  lemma Congruence(a: nat, b: nat)
    ensures a % 256 == b % 256 <==> SameEpochOf(a, b)
  {
  }

  /** Flow preservation, in every run: during a drain a packet leaves by the old slot exactly when its flow
      was last recorded a multiple of 256 passes ago, otherwise by the active one; outside a drain always by
      the active one. The slot it leaves by is valid. */
  lemma FlowsPreserved(c: Config, ends: Endpoints, states: seq<Sys>, steps: seq<Step>, i: nat)
    requires Trace(c, ends, states, steps) && i < |steps| && steps[i].Encap?
    ensures var s := states[i];
            var key := BuildFlowKey(steps[i].inner, false);
            var slot := Pick(s.m.ctrl, s.flows, key, s.now, steps[i].room).slot;
            && slot == (if s.m.ctrl.state == DRAINING && Marked(s.h, key) then s.m.ctrl.oldSlot else s.m.ctrl.activeSlot)
            && Sound(s.m) && s.m.hops[slot].valid
            && (s.m.ctrl.state == DRAINING ==> s.m.ctrl.oldSlot != s.m.ctrl.activeSlot)
  {
    SlotsSafe(c, ends, states, steps, i);
    Reachable(c, ends, states, steps, i);
    var s := states[i];
    MarkedIsCurrent(s.m.ctrl, s.flows.table, s.h, BuildFlowKey(steps[i].inner, false));
    PickedSlot(s.m.ctrl, s.flows, BuildFlowKey(steps[i].inner, false), s.now, steps[i].room);
  }

  /** With fewer than 256 passes since the flow was last recorded, that is exactly when it is pinned. */
  lemma PinnedLeaves(c: Config, ends: Endpoints, states: seq<Sys>, steps: seq<Step>, i: nat, key: FlowKey)
    requires Trace(c, ends, states, steps) && i < |steps| && steps[i].Encap? && key == BuildFlowKey(steps[i].inner, false)
    requires key in states[i].h.stamp ==> states[i].h.gen - states[i].h.stamp[key] < 256
    ensures var s := states[i];
            var slot := Pick(s.m.ctrl, s.flows, key, s.now, steps[i].room).slot;
            slot == if s.m.ctrl.state == DRAINING && key in Pinned(s.h) then s.m.ctrl.oldSlot else s.m.ctrl.activeSlot
  {
    FlowsPreserved(c, ends, states, steps, i);
    Reachable(c, ends, states, steps, i);
  }

  /** How flows come to be pinned and cease to be: a pass starts with none; a packet of either
      direction pins its flow while priming, if it can be recorded; a collection lets go of exactly
      the idle ones; nothing else changes them. */
  ghost predicate Evolves(s: Sys, step: Step, s': Sys) {
    var recorded := s.m.ctrl.state == PRIMING && s'.flows.fails == s.flows.fails;
    match step
    case Encap(inner, _) => Pinned(s'.h) == if recorded then Pinned(s.h) + {BuildFlowKey(inner, false)} else Pinned(s.h)
    case Decap(inner, _) => Pinned(s'.h) == if recorded then Pinned(s.h) + {BuildFlowKey(inner, true)} else Pinned(s.h)
    case WriteOne =>
      s.work.Busy? && s.work.writes != []
      && Pinned(s'.h) == if StartsPass(s) then {} else Pinned(s.h)
    case Start(readable, _) =>
      s.reqs != []
      && Pinned(s'.h) ==
         if s.reqs[0].req.GcReq? && readable
         then set f | f in Pinned(s.h) && f in s.flows.table && !GoneIdle(f, s.flows.table[f], s.now, FLOW_IDLE)
         else Pinned(s.h)
    case _ => Pinned(s'.h) == Pinned(s.h)
  }

  /** The next write starts a priming pass. */
  predicate StartsPass(s: Sys)
    requires s.work.Busy? && s.work.writes != []
  {
    s.work.writes[0].PutCtrl? && s.work.writes[0].c.state == PRIMING
  }

  lemma StepEvolves(c: Config, s: Sys, step: Step)
    requires Inv(s) && Enabled(s, step)
    ensures Evolves(s, step, Next(c, s, step))
  {
    match step
    case Start(readable, source) => StartPins(c, s, readable, source);
    case WriteOne => WritePins(c, s);
    case Encap(inner, room) => PacketPins(s, BuildFlowKey(inner, false), Next(c, s, step).flows);
    case Decap(inner, room) => PacketPins(s, BuildFlowKey(inner, true), Next(c, s, step).flows);
    case _ =>
  }

  lemma PinnedEvolves(c: Config, ends: Endpoints, states: seq<Sys>, steps: seq<Step>, i: nat)
    requires Trace(c, ends, states, steps) && i < |steps|
    ensures Evolves(states[i], steps[i], states[i + 1])
  {
    Reachable(c, ends, states, steps, i);
    assert Link(c, states[i], steps[i], states[i + 1]);
    StepEvolves(c, states[i], steps[i]);
  }

  lemma StartPins(c: Config, s: Sys, readable: bool, source: Reply)
    requires Inv(s) && Enabled(s, Start(readable, source))
    ensures var s' := Next(c, s, Start(readable, source));
            Pinned(s'.h) ==
            if s.reqs[0].req.GcReq? && readable
            then set f | f in Pinned(s.h) && f in s.flows.table && !GoneIdle(f, s.flows.table[f], s.now, FLOW_IDLE)
            else Pinned(s.h)
  {
    if s.reqs[0].req.GcReq? {
      CollectionDrains(s);
      PinnedIsCurrent(s.m.ctrl, s.flows.table, s.h);
    }
  }

  lemma CollectionDrains(s: Sys)
    requires Inv(s) && s.work == Idle && s.reqs != [] && s.reqs[0].req.GcReq?
    ensures s.m.ctrl.state == DRAINING
  {
    AbsIdle(s);
    assert s.reqs[0] in s.reqs;
    assert P.Ops(s.reqs)[0] == s.reqs[0];
  }

  lemma PacketPins(s: Sys, key: FlowKey, flows: Flows)
    requires s.h.stamp.Keys == s.flows.table.Keys
    ensures Pinned(Handled(s, key, flows).h) == if s.m.ctrl.state == PRIMING && flows.fails == s.flows.fails
                                                then Pinned(s.h) + {key} else Pinned(s.h)
  {
  }

  lemma WritePins(c: Config, s: Sys)
    requires Inv(s) && Enabled(s, WriteOne)
    ensures var w := s.work.writes[0];
            Pinned(Next(c, s, WriteOne).h) == if StartsPass(s) then {} else Pinned(s.h)
  {
  }

  /** Step `j` records flow `f`: a packet of either direction, in priming, that finds room. */
  ghost predicate RecordsAt(states: seq<Sys>, steps: seq<Step>, j: nat, f: FlowKey)
    requires j < |steps| < |states|
  {
    && ((steps[j].Encap? && BuildFlowKey(steps[j].inner, false) == f)
        || (steps[j].Decap? && BuildFlowKey(steps[j].inner, true) == f))
    && states[j].m.ctrl.state == PRIMING && states[j + 1].flows.fails == states[j].flows.fails
  }

  /** Step `l` is a collection that finds `f` idle. */
  ghost predicate DropsAt(states: seq<Sys>, steps: seq<Step>, l: nat, f: FlowKey)
    requires l < |steps| < |states|
  {
    var s := states[l];
    && steps[l].Start? && steps[l].readable && s.reqs != [] && s.reqs[0].req.GcReq?
    && f in s.flows.table && GoneIdle(f, s.flows.table[f], s.now, FLOW_IDLE)
  }

  /** Step `j` recorded `f` in the pass that is on before step `i`, and no collection since found it idle. */
  ghost predicate PinnedBy(states: seq<Sys>, steps: seq<Step>, i: nat, j: nat, f: FlowKey)
    requires i <= |steps| < |states|
  {
    && j < i && RecordsAt(states, steps, j, f) && states[j].h.gen == states[i].h.gen
    && forall l :: j < l < i ==> !DropsAt(states, steps, l, f)
  }

  /** The count of passes goes up by one where one starts, and nowhere else. */
  ghost predicate Counted(s: Sys, step: Step, s': Sys) {
    && (step.WriteOne? ==> s.work.Busy? && s.work.writes != [])
    && s'.h.gen == s.h.gen + (if step.WriteOne? && StartsPass(s) then 1 else 0)
  }

  lemma GenStep(c: Config, s: Sys, step: Step)
    requires WellFormed(s.m) && Enabled(s, step)
    ensures Counted(s, step, Next(c, s, step))
  {
  }

  lemma {:induction false} GenGrows(c: Config, ends: Endpoints, states: seq<Sys>, steps: seq<Step>, j: nat, i: nat)
    requires Trace(c, ends, states, steps) && j <= i < |states|
    ensures states[j].h.gen <= states[i].h.gen
  {
    if j < i {
      GenGrows(c, ends, states, steps, j, i - 1);
      assert Link(c, states[i - 1], steps[i - 1], states[i - 1 + 1]);
      GenStep(c, states[i - 1], steps[i - 1]);
    }
  }

  /** What one step does to one flow. */
  lemma PinnedStep(states: seq<Sys>, steps: seq<Step>, p: nat, q: nat, f: FlowKey)
    requires q == p + 1 <= |steps| < |states|
    requires Evolves(states[p], steps[p], states[q]) && Counted(states[p], steps[p], states[q])
    requires f in Pinned(states[p].h) ==> f in states[p].flows.table
    ensures states[q].h.gen == states[p].h.gen ==>
              (f in Pinned(states[q].h)
               <==> RecordsAt(states, steps, p, f) || (f in Pinned(states[p].h) && !DropsAt(states, steps, p, f)))
    ensures states[q].h.gen != states[p].h.gen ==> f !in Pinned(states[q].h) && states[q].h.gen > states[p].h.gen
  {
  }

  lemma StampedKeys(s: Sys)
    requires Inv(s)
    ensures forall f :: f in Pinned(s.h) ==> f in s.flows.table
  {
  }

  ghost predicate IsPinned(states: seq<Sys>, steps: seq<Step>, i: nat, f: FlowKey)
    requires i <= |steps| < |states|
  {
    exists j: nat :: PinnedBy(states, steps, i, j, f)
  }

  /** One more step of the same pass. */
  lemma PinnedOn(states: seq<Sys>, steps: seq<Step>, p: nat, q: nat, f: FlowKey)
    requires q == p + 1 <= |steps| < |states| && states[q].h.gen == states[p].h.gen
    ensures IsPinned(states, steps, q, f)
            <==> RecordsAt(states, steps, p, f) || (IsPinned(states, steps, p, f) && !DropsAt(states, steps, p, f))
  {
    if RecordsAt(states, steps, p, f) {
      assert PinnedBy(states, steps, q, p, f);
    }
    if IsPinned(states, steps, p, f) && !DropsAt(states, steps, p, f) {
      var j: nat :| PinnedBy(states, steps, p, j, f);
      assert PinnedBy(states, steps, q, j, f);
    }
    if IsPinned(states, steps, q, f) {
      var j: nat :| PinnedBy(states, steps, q, j, f);
      if j < p {
        assert PinnedBy(states, steps, p, j, f);
      }
    }
  }

  /** The first of another. */
  lemma PinnedAnew(c: Config, ends: Endpoints, states: seq<Sys>, steps: seq<Step>, p: nat, q: nat, f: FlowKey)
    requires Trace(c, ends, states, steps) && q == p + 1 <= |steps| && states[q].h.gen > states[p].h.gen
    ensures !IsPinned(states, steps, q, f)
  {
    forall j: nat | PinnedBy(states, steps, q, j, f)
      ensures false
    {
      GenGrows(c, ends, states, steps, j, p);
    }
  }

  /** The closed form: a flow is pinned exactly when some packet of it was recorded in this pass and no
      collection since has found it idle. */
  lemma {:induction false} PinnedExactly(c: Config, ends: Endpoints, states: seq<Sys>, steps: seq<Step>, i: nat, f: FlowKey)
    requires Trace(c, ends, states, steps) && i < |states|
    ensures f in Pinned(states[i].h) <==> IsPinned(states, steps, i, f)
  {
    if i > 0 {
      var p := i - 1;
      PinnedExactly(c, ends, states, steps, p, f);
      PinnedNext(c, ends, states, steps, p, i, f);
    }
  }

  lemma PinnedNext(c: Config, ends: Endpoints, states: seq<Sys>, steps: seq<Step>, p: nat, q: nat, f: FlowKey)
    requires Trace(c, ends, states, steps) && q == p + 1 <= |steps|
    requires f in Pinned(states[p].h) <==> IsPinned(states, steps, p, f)
    ensures f in Pinned(states[q].h) <==> IsPinned(states, steps, q, f)
  {
    PinnedEvolves(c, ends, states, steps, p);
    Reachable(c, ends, states, steps, p);
    StampedKeys(states[p]);
    assert Link(c, states[p], steps[p], states[p + 1]);
    GenStep(c, states[p], steps[p]);
    PinnedStep(states, steps, p, q, f);
    if states[q].h.gen == states[p].h.gen {
      PinnedOn(states, steps, p, q, f);
    } else {
      PinnedAnew(c, ends, states, steps, p, q, f);
    }
  }

  /** Step `l` is a collection that finds `f`, recorded in pass `g`, idle or of another epoch. */
  ghost predicate RemovesAt(states: seq<Sys>, steps: seq<Step>, l: nat, f: FlowKey, g: nat)
    requires l < |steps| < |states|
  {
    var s := states[l];
    && steps[l].Start? && steps[l].readable && s.reqs != [] && s.reqs[0].req.GcReq?
    && f in s.flows.table && (!SameEpochOf(g, s.h.gen) || GoneIdle(f, s.flows.table[f], s.now, FLOW_IDLE))
  }

  /** Step `j` is the last before step `i` to have recorded `f`, and no collection since has removed it. */
  ghost predicate LastRecord(states: seq<Sys>, steps: seq<Step>, i: nat, j: nat, f: FlowKey)
    requires i <= |steps| < |states|
  {
    && j < i && RecordsAt(states, steps, j, f)
    && forall l :: j < l < i ==> !RecordsAt(states, steps, l, f) && !RemovesAt(states, steps, l, f, states[j].h.gen)
  }

  /** ... and it did so in pass `g`. */
  ghost predicate RecordedIn(states: seq<Sys>, steps: seq<Step>, i: nat, f: FlowKey, g: nat)
    requires i <= |steps| < |states|
  {
    exists j: nat :: LastRecord(states, steps, i, j, f) && states[j].h.gen == g
  }

  ghost predicate StampIs(h: History, f: FlowKey, g: nat) {
    f in h.stamp && h.stamp[f] == g
  }

  /** What a collection in a drain leaves. */
  lemma CollectMarked(c: Ctrl, t: Table, h: History, now: nat, f: FlowKey)
    requires Stamped(c, t, h) && c.state == DRAINING && f in t
    ensures f in Collect(c, t, now, FLOW_IDLE) <==> Marked(h, f) && !GoneIdle(f, t[f], now, FLOW_IDLE)
  {
    MarkedIsCurrent(c, t, h, f);
  }

  lemma StampCollect(s: Sys, f: FlowKey, g: nat)
    requires Stamped(s.m.ctrl, s.flows.table, s.h) && s.m.ctrl.state == DRAINING
    ensures StampIs(Collected(s).h, f, g)
            <==> && StampIs(s.h, f, g)
                 && SameEpochOf(g, s.h.gen) && !GoneIdle(f, s.flows.table[f], s.now, FLOW_IDLE)
  {
    if f in s.flows.table {
      CollectMarked(s.m.ctrl, s.flows.table, s.h, s.now, f);
    }
  }

  /** A request taken up leaves the stamps as they are, unless it is a collection. */
  lemma StampStart(c: Config, s: Sys, step: Step)
    requires WellFormed(s.m) && step.Start? && Enabled(s, step)
    ensures Next(c, s, step).h.stamp
            == if step.readable && s.reqs[0].req.GcReq? then Collected(s).h.stamp else s.h.stamp
  {
  }

  lemma StampTaken(c: Config, states: seq<Sys>, steps: seq<Step>, p: nat, q: nat, f: FlowKey, g: nat)
    requires q == p + 1 <= |steps| < |states| && Inv(states[p]) && Link(c, states[p], steps[p], states[q])
    requires steps[p].Start?
    ensures StampIs(states[q].h, f, g) <==> StampIs(states[p].h, f, g) && !RemovesAt(states, steps, p, f, g)
  {
    var s := states[p];
    StampStart(c, s, steps[p]);
    if steps[p].readable && s.reqs[0].req.GcReq? {
      CollectionDrains(s);
      StampCollect(s, f, g);
    }
  }

  lemma StampKept(c: Config, s: Sys, step: Step, f: FlowKey)
    requires WellFormed(s.m) && Enabled(s, step) && !step.Start?
    requires step.Encap? ==> BuildFlowKey(step.inner, false) != f
    requires step.Decap? ==> BuildFlowKey(step.inner, true) != f
    ensures f in Next(c, s, step).h.stamp <==> f in s.h.stamp
    ensures f in s.h.stamp ==> Next(c, s, step).h.stamp[f] == s.h.stamp[f]
  {
  }

  lemma StampPacket(s: Sys, key: FlowKey, flows: Flows)
    ensures var s' := Handled(s, key, flows);
            if s.m.ctrl.state == PRIMING && flows.fails == s.flows.fails then StampIs(s'.h, key, s.h.gen)
            else s'.h.stamp == s.h.stamp
  {
  }

  /** What one step does to the stamp of one flow. */
  lemma StampStep(c: Config, states: seq<Sys>, steps: seq<Step>, p: nat, q: nat, f: FlowKey, g: nat)
    requires q == p + 1 <= |steps| < |states| && Inv(states[p]) && Link(c, states[p], steps[p], states[q])
    ensures RecordsAt(states, steps, p, f) ==> (StampIs(states[q].h, f, g) <==> states[p].h.gen == g)
    ensures !RecordsAt(states, steps, p, f) ==>
              (StampIs(states[q].h, f, g) <==> StampIs(states[p].h, f, g) && !RemovesAt(states, steps, p, f, g))
  {
    var s, step := states[p], steps[p];
    if step.Start? {
      StampTaken(c, states, steps, p, q, f, g);
    } else if (step.Encap? && BuildFlowKey(step.inner, false) == f) || (step.Decap? && BuildFlowKey(step.inner, true) == f) {
      StampPacket(s, f, states[q].flows);
    } else {
      StampKept(c, s, step, f);
    }
  }

  lemma RecordStep(states: seq<Sys>, steps: seq<Step>, p: nat, q: nat, f: FlowKey, g: nat)
    requires q == p + 1 <= |steps| < |states|
    ensures RecordsAt(states, steps, p, f) ==> (RecordedIn(states, steps, q, f, g) <==> states[p].h.gen == g)
    ensures !RecordsAt(states, steps, p, f) ==>
              (RecordedIn(states, steps, q, f, g)
               <==> RecordedIn(states, steps, p, f, g) && !RemovesAt(states, steps, p, f, g))
  {
    if RecordsAt(states, steps, p, f) && states[p].h.gen == g {
      assert LastRecord(states, steps, q, p, f);
    }
    if !RecordsAt(states, steps, p, f) && RecordedIn(states, steps, p, f, g) && !RemovesAt(states, steps, p, f, g) {
      var j: nat :| LastRecord(states, steps, p, j, f) && states[j].h.gen == g;
      assert LastRecord(states, steps, q, j, f);
    }
    if RecordedIn(states, steps, q, f, g) {
      var j: nat :| LastRecord(states, steps, q, j, f) && states[j].h.gen == g;
      if j < p {
        assert LastRecord(states, steps, p, j, f);
      }
    }
  }

  /** The closed form: the pass a flow is stamped with is that of the last packet to have recorded it, as long
      as no collection since has removed it. */
  lemma {:induction false} StampExactly(
    c: Config, ends: Endpoints, states: seq<Sys>, steps: seq<Step>, i: nat, f: FlowKey, g: nat)
    requires Trace(c, ends, states, steps) && i < |states|
    ensures StampIs(states[i].h, f, g) <==> RecordedIn(states, steps, i, f, g)
  {
    if i > 0 {
      var p := i - 1;
      StampExactly(c, ends, states, steps, p, f, g);
      Reachable(c, ends, states, steps, p);
      assert Link(c, states[p], steps[p], states[p + 1]);
      StampStep(c, states, steps, p, i, f, g);
      RecordStep(states, steps, p, i, f, g);
    }
  }

  /** So, in terms of what happened: in a drain a packet leaves by the old slot exactly when the last packet
      to have recorded its flow did so a multiple of 256 passes ago and no collection since has removed it. */
  lemma LeavesByOldSlot(c: Config, ends: Endpoints, states: seq<Sys>, steps: seq<Step>, i: nat, key: FlowKey)
    requires Trace(c, ends, states, steps) && i < |steps| && steps[i].Encap? && key == BuildFlowKey(steps[i].inner, false)
    requires states[i].m.ctrl.state == DRAINING
    ensures var s := states[i];
            Pick(s.m.ctrl, s.flows, key, s.now, steps[i].room).slot == s.m.ctrl.oldSlot
            <==> exists g: nat :: RecordedIn(states, steps, i, key, g) && SameEpochOf(g, s.h.gen)
  {
    var s := states[i];
    FlowsPreserved(c, ends, states, steps, i);
    if Marked(s.h, key) {
      StampExactly(c, ends, states, steps, i, key, s.h.stamp[key]);
    }
    forall g: nat | RecordedIn(states, steps, i, key, g)
      ensures StampIs(s.h, key, g)
    {
      StampExactly(c, ends, states, steps, i, key, g);
    }
  }

  /** The cutover gate: at the write that cuts over, priming has run its full window, and every flow
      the datapath handled from the start of the pass to the controller's reading of the counters is
      recorded. If no recording failed since either, so is every flow it handled at all. */
  lemma CutoverGate(c: Config, ends: Endpoints, states: seq<Sys>, steps: seq<Step>, i: nat)
    requires Trace(c, ends, states, steps) && i < |steps| && steps[i].WriteOne?
    requires states[i].work.Busy? && states[i].work.writes != []
    requires states[i].work.writes[0].PutCtrl? && states[i].work.writes[0].c.state == DRAINING
    ensures var s := states[i];
            && s.m.ctrl.state == PRIMING
            && s.now >= s.h.k.primedAt + PRIMING_DURATION
            && s.h.counted.Some? && s.h.counted.value <= Current(s.m.ctrl, s.flows.table)
            && (s.flows.fails == s.h.k.base ==> s.h.seen <= Current(s.m.ctrl, s.flows.table))
  {
    Reachable(c, ends, states, steps, i);
    assert states[i].work.writes[0] in states[i].work.writes;
  }

  /** The gate does not cover the time from that reading to the write: a flow first handled then,
      and not recorded for want of room, is cut over unrecorded. */
  lemma LateFlowIsMissed(c: Config, s: Sys, inner: Inner)
    requires Inv(s) && s.work.Busy? && s.work.writes != [] && s.work.item.req.CutoverReq?
    requires BuildFlowKey(inner, false) !in s.flows.table
    ensures var key := BuildFlowKey(inner, false);
            var s1 := Next(c, s, Encap(inner, false));
            && Inv(s1) && key in s1.h.seen && key !in Current(s1.m.ctrl, s1.flows.table)
            && Enabled(s1, WriteOne)
            && Next(c, s1, WriteOne).m.ctrl.state == DRAINING && key !in Next(c, s1, WriteOne).flows.table
  {
    var key := BuildFlowKey(inner, false);
    SameFlows(s.m.ctrl, s.flows, key, s.now, false);
    KeepPacket(s, key, false);
    var w := s.work.writes[0];
    assert w.PutCtrl? && w.c.state == DRAINING;
  }

  /** The drain's end: a completion asked for by a controller finds no flow still pinned, unless the cap
      of this very drain has fired. */
  lemma DrainEnds(c: Config, ends: Endpoints, states: seq<Sys>, steps: seq<Step>, i: nat)
    requires Trace(c, ends, states, steps) && i < |steps| && steps[i].Start?
    requires states[i].reqs != [] && states[i].reqs[0].req == CompleteReq
    ensures var s := states[i];
            Current(s.m.ctrl, s.flows.table) == {} || s.h.k.capped
  {
    Reachable(c, ends, states, steps, i);
    assert Link(c, states[i], steps[i], states[i + 1]);
    var s := states[i];
    AbsIdle(s);
    assert s.reqs[0] in s.reqs;
    assert P.Ops(s.reqs)[0] == s.reqs[0];
  }

  /** A drain is marked as capped only once its own cap has fired, and no earlier than two hours after it
      began. */
  lemma CapIsOwn(c: Config, ends: Endpoints, states: seq<Sys>, steps: seq<Step>, i: nat)
    requires Trace(c, ends, states, steps) && i < |states|
    ensures var s := states[i];
            && (s.ctl.phase == Draining && s.ctl.data.capReached ==> s.h.k.capped)
            && (s.h.k.capped ==> s.now >= s.h.k.drainAt + MAX_DRAIN_DURATION)
  {
    Reachable(c, ends, states, steps, i);
  }

  lemma CappedOnlyBy(c: Config, s: Sys, step: Step)
    requires WellFormed(s.m) && Enabled(s, step) && Next(c, s, step).h.k.capped && !s.h.k.capped
    ensures step.Control? && step.step.FireCap? && s.ctl.phase == Draining && step.step.cap.migration == s.ctl.data.migration
  {
  }

  /** The caps running in a drain: its own run two hours. */
  lemma OwnCap(s: Sys, cap: P.Cap)
    requires Inv(s) && s.ctl.phase == Draining && cap in s.ctl.caps && cap.migration == s.ctl.data.migration
    ensures cap.at >= s.h.k.drainAt + MAX_DRAIN_DURATION
  {
    assert Capped(Abs(s).ctl, s.now, s.h.k);
  }

  /** What counts as its own cap firing: the timer started when this drain began, for this migration and
      not before two hours are over. */
  lemma CapFires(c: Config, ends: Endpoints, states: seq<Sys>, steps: seq<Step>, i: nat)
    requires Trace(c, ends, states, steps) && i < |steps|
    requires states[i + 1].h.k.capped && !states[i].h.k.capped
    ensures var s := states[i];
            && steps[i].Control? && steps[i].step.FireCap? && s.ctl.phase == Draining
            && steps[i].step.cap.migration == s.ctl.data.migration
            && s.now >= steps[i].step.cap.at >= s.h.k.drainAt + MAX_DRAIN_DURATION
  {
    Reachable(c, ends, states, steps, i);
    assert Link(c, states[i], steps[i], states[i + 1]);
    CappedOnlyBy(c, states[i], steps[i]);
    OwnCap(states[i], steps[i].step.cap);
  }

  /** A cap left from an earlier migration leaves no mark. */
  lemma StaleCapIsMute(c: Config, ends: Endpoints, states: seq<Sys>, steps: seq<Step>, i: nat, cap: P.Cap)
    requires Trace(c, ends, states, steps) && i < |steps| && steps[i] == Control(P.FireCap(cap))
    requires cap.migration != states[i].ctl.data.migration
    ensures states[i + 1].ctl.data == states[i].ctl.data && states[i + 1].h == states[i].h
  {
    assert Link(c, states[i], steps[i], states[i + 1]);
    P.CapTurn(c, Raw(states[i]), cap);
  }

  // ---------------------------------------------------------------- the refused hard switch

  /** The hard switch a source answer brings about during a drain, to the end: the answer, the
      softwire's turn, and its answer. */
  ghost function SwitchedFromDrain(c: Config, s: P.State, env: Env): P.State
    requires s.resps != [] && WellFormed(s.m)
  {
    var s1 := P.Next(c, s, P.Deliver);
    if s1.reqs == [] then s1
    else
      var s2 := P.Next(c, s1, P.Handle(env));
      if s2.resps == [] || !WellFormed(s2.m) then s2 else P.Next(c, s2, P.Deliver)
  }

  /** The softwire serves the hard switch: it goes through, or changes nothing. */
  lemma SwitchServed(c: Config, s: P.State, it: P.Item, env: Env)
    requires P.Shape(s.sw, s.m) && s.reqs == [it] && s.resps == [] && it.req.SwitchReq? && P.Mine(s.ctl, it) && env.readable
    ensures var s' := P.Next(c, s, P.Handle(env)); var ok := ValidEndpoints(it.req.to);
            && s'.ctl == s.ctl && s'.resps == [P.Answer(it.tag, DoneRep(ok))] && WellFormed(s'.m)
            && (if ok then s'.m.ctrl.state == STEADY && s'.sw.active == it.req.to else s'.m == s.m && s'.sw == s.sw)
  {
    P.ServeResult(s.sw, s.m, it.req, env);
    P.ServeKeepsShape(s.sw, s.m, it.req, env);
    var answer := P.Answer(it.tag, DoneRep(ValidEndpoints(it.req.to)));
    assert s.resps + [answer] == [answer];
  }

  lemma DrainIsOn(s: P.State)
    requires P.Inv(s) && s.ctl.phase == Draining && s.reqs == [] && |s.resps| == 1 && s.resps[0].tag.op == OpSource
    ensures s.m.ctrl.state == DRAINING && s.sw.active == Endpoints(s.ctl.data.b4, s.ctl.data.next.aftr)
    ensures s.ctl.data.next.aftr != s.ctl.data.current.aftr && ValidEndpoints(s.sw.active) && !s.ctl.discovering
  {
    assert s.resps[1..] == [];
    assert P.Live(s.resps, s.ctl.data.gen) == [];
  }

  /** During a drain a new B4 the controller finds usable takes the softwire to agreement exactly when
      it is not an IPv4-mapped address: the datapath refuses those, and the controller then takes
      itself to be on the AFTR it is leaving while new flows go to the next one. */
  lemma RefusedSwitchDisagrees(c: Config, s: P.State, b4: Addr, env: Env)
    requires P.Inv(s) && s.ctl.phase == Draining && s.reqs == []
    requires s.resps == [P.Answer(Tag(OpSource, s.ctl.data.gen), SourceRep(b4, true, true))]
    requires UsableB4(b4) && b4 != s.ctl.data.b4 && env.readable
    ensures var s' := SwitchedFromDrain(c, s, env);
            var d := s'.ctl.data;
            && s'.ctl.phase == Steady
            && (s'.sw.active == Endpoints(d.b4, d.current.aftr) <==> !b4.Is4In6())
            && (s'.m.ctrl.state == STEADY <==> !b4.Is4In6())
  {
    DrainIsOn(s);
    var it := P.HardSwitchItem(c, s);
    var s1 := P.Next(c, s, P.Deliver);
    assert s1.reqs == [it] && s1.resps == [];
    UsableButRefused(b4);
    SwitchServed(c, s1, it, env);
    P.OutsideTurn(c, P.Next(c, s1, P.Handle(env)));
  }

  /** The controller so misled then begins a migration the datapath is in no state for, and is refused. */
  lemma MisledBeginIsRefused(c: Config, s: P.State, rep: DiscoverRep, env: Env)
    requires P.Inv(s) && s.ctl.phase == Discovering && s.ctl.discovering && s.reqs == [] && s.m.ctrl.state != STEADY
    requires P.Moves(s.ctl.data, rep)
    ensures var s1 := P.Next(c, s, P.FinishDiscovery(rep));
            && |s1.reqs| == 1 && s1.reqs[0].req.BeginReq? && s1.m == s.m
            && !Serve(s1.sw, s1.m, s1.reqs[0].req, env).rep.ok && Serve(s1.sw, s1.m, s1.reqs[0].req, env).writes == []
  {
    P.DiscoveryTurn(c, s, rep);
  }
}
