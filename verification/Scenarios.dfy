/** Runs of the migration system: that migrations go through, that flows are kept on the old slot, and that
    the states at which the system falls short are reached. */
module Scenarios {
  import opened Wrappers
  import opened Addresses
  import opened Datapath
  import opened FlowAffinity
  import opened Controlling
  import opened Serving
  import P = Protocol
  import opened Decisions
  import opened Migration
  import opened MigrationTheorems

  // ---------------------------------------------------------------- states that are reached

  ghost predicate LeadsTo(c: Config, ends: Endpoints, states: seq<Sys>, steps: seq<Step>, s: Sys) {
    Trace(c, ends, states, steps) && states[|steps|] == s
  }

  /** Some run from startup on `ends` leads to `s`. */
  ghost predicate Reached(c: Config, ends: Endpoints, s: Sys) {
    exists states, steps :: LeadsTo(c, ends, states, steps, s)
  }

  lemma ReachedInv(c: Config, ends: Endpoints, s: Sys)
    requires Reached(c, ends, s)
    ensures Inv(s)
  {
    var states, steps :| LeadsTo(c, ends, states, steps, s);
    Reachable(c, ends, states, steps, |steps|);
  }

  lemma ReachedNext(c: Config, ends: Endpoints, s: Sys, step: Step)
    requires Reached(c, ends, s) && WellFormed(s.m) && Enabled(s, step)
    ensures Reached(c, ends, Next(c, s, step))
  {
    var states, steps :| LeadsTo(c, ends, states, steps, s);
    var s' := Next(c, s, step);
    var states', steps' := states + [s'], steps + [step];
    forall i | 0 <= i < |steps'|
      ensures Link(c, states'[i], steps'[i], states'[i + 1])
    {
      if i < |steps| {
        assert Link(c, states[i], steps[i], states[i + 1]);
      }
    }
    assert LeadsTo(c, ends, states', steps', s');
  }

  /** The state after startup. */
  function Startup(ends: Endpoints): Sys {
    Sys(P.Fresh(0), [P.RecoverItem(0)], Idle, [], Sw(ends, Endpoints(NoAddr, NoAddr), false),
        Maps(Ctrl(0, 0, STEADY, 0), [NextHop(true, ends), CLEARED], [NOTHING_LEARNED, NOTHING_LEARNED]),
        Flows(map[], 0, 0), 0, false, History(0, 0, map[], false, {}, None, Known(0, None, None, 0, 0, false)))
  }

  lemma StartupReached(c: Config, ends: Endpoints)
    requires ValidEndpoints(ends)
    ensures Reached(c, ends, Startup(ends))
  {
    assert LeadsTo(c, ends, [Startup(ends)], [], Startup(ends));
  }

  // ---------------------------------------------------------------- the protocol is realised

  /** The flows handled in the pass under way, after the writes of a request: none if one starts a pass. */
  function SeenAfter(ws: seq<Write>, seen: set<FlowKey>): set<FlowKey>
    decreases |ws|
  {
    if ws == [] then seen
    else SeenAfter(ws[1..], if ws[0].PutCtrl? && ws[0].c.state == PRIMING then {} else seen)
  }

  /** The remaining writes of a request are made, one after the other. */
  lemma WritesOut(c: Config, ends: Endpoints, s: Sys) returns (s': Sys)
    requires Reached(c, ends, s) && WellFormed(s.m) && s.work.Busy?
    ensures Reached(c, ends, s') && WellFormed(s'.m) && s'.work.Busy? && s'.work.writes == []
    ensures Abs(s') == Abs(s) && s'.flows == s.flows && s'.h.seen == SeenAfter(s.work.writes, s.h.seen)
    decreases |s.work.writes|
  {
    if s.work.writes == [] {
      s' := s;
    } else {
      var s1 := Next(c, s, WriteOne);
      ReachedNext(c, ends, s, WriteOne);
      ReachedInv(c, ends, s);
      ReachedInv(c, ends, s1);
      QuietRefines(c, s, WriteOne);
      s' := WritesOut(c, ends, s1);
    }
  }

  lemma Replied(c: Config, ends: Endpoints, s: Sys) returns (s': Sys)
    requires Reached(c, ends, s) && WellFormed(s.m) && s.work.Busy? && s.work.writes == []
    ensures Reached(c, ends, s') && s'.work == Idle && Raw(s') == Abs(s) && s'.flows == s.flows && s'.h.seen == s.h.seen
  {
    s' := Next(c, s, Finish);
    ReachedNext(c, ends, s, Finish);
    ReachedInv(c, ends, s);
    QuietRefines(c, s, Finish);
    AbsIdle(s');
  }

  /** Only a collection changes the flows. */
  function FlowsAfter(s: Sys, req: Request, readable: bool): Flows {
    if req.GcReq? && readable then s.flows.(table := Collect(s.m.ctrl, s.flows.table, s.now, FLOW_IDLE)) else s.flows
  }

  /** The request at the front is taken up, written out and answered. */
  lemma Serves(c: Config, ends: Endpoints, s: Sys, readable: bool, source: Reply) returns (s': Sys)
    requires Reached(c, ends, s) && WellFormed(s.m) && s.work == Idle && s.reqs != []
    ensures Reached(c, ends, s') && s'.work == Idle
    ensures Raw(s') == P.Next(c, Raw(s), P.Handle(EnvOf(s, readable, source)))
    ensures s'.flows == FlowsAfter(s, s.reqs[0].req, readable)
    ensures s'.h.seen == SeenAfter(Serve(s.sw, s.m, s.reqs[0].req, EnvOf(s, readable, source)).writes, s.h.seen)
  {
    var s1 := Next(c, s, Start(readable, source));
    ReachedNext(c, ends, s, Start(readable, source));
    ReachedInv(c, ends, s1);
    StartRefines(c, s, readable, source);
    AbsIdle(s);
    var s2 := WritesOut(c, ends, s1);
    s' := Replied(c, ends, s2);
  }

  lemma Controls(c: Config, ends: Endpoints, s: Sys, p: P.Step) returns (s': Sys)
    requires Reached(c, ends, s) && WellFormed(s.m) && s.work == Idle && !p.Handle? && P.Enabled(Raw(s), p)
    ensures Reached(c, ends, s') && s'.work == Idle && Raw(s') == P.Next(c, Raw(s), p)
    ensures s'.flows == s.flows && s'.h.seen == s.h.seen
  {
    s' := Next(c, s, Control(p));
    ReachedNext(c, ends, s, Control(p));
    ControlsSame(c, s, p);
  }

  /** A step of the controller leaves softwire and maps alone. */
  lemma ControlsSame(c: Config, s: Sys, p: P.Step)
    requires WellFormed(s.m) && s.work == Idle && !p.Handle? && P.Enabled(Raw(s), p)
    ensures Raw(Next(c, s, Control(p))) == P.Next(c, Raw(s), p)
  {
  }

  /** The converse of refinement: whatever step the protocol takes from a state between requests, the
      system with its single writes can take it too. */
  lemma Realises(c: Config, ends: Endpoints, s: Sys, p: P.Step) returns (s': Sys)
    requires Reached(c, ends, s) && WellFormed(s.m) && s.work == Idle && P.Enabled(Raw(s), p)
    requires p.Handle? ==> p.env == EnvOf(s, p.env.readable, p.env.source)
    ensures Reached(c, ends, s') && s'.work == Idle && Raw(s') == P.Next(c, Raw(s), p)
  {
    if p.Handle? {
      s' := Serves(c, ends, s, p.env.readable, p.env.source);
    } else {
      s' := Controls(c, ends, s, p);
    }
  }

  // ---------------------------------------------------------------- the stages of a migration

  /** What the kernel answers where no source is asked for. */
  const NO_SOURCE := SourceRep(NoAddr, false, false)

  /** Between requests, with nothing under way. */
  ghost predicate Quiet(s: Sys) {
    s.work == Idle && s.reqs == [] && s.resps == []
  }

  ghost predicate OneRequest(s: Sys, op: Op, req: Request) {
    s.work == Idle && s.reqs == [P.Item(s.ctl.inc, Tag(op, s.ctl.data.gen), req)] && s.resps == []
  }

  ghost predicate OneAnswer(s: Sys, op: Op, rep: Reply) {
    s.work == Idle && s.reqs == [] && s.resps == [P.Answer(Tag(op, s.ctl.data.gen), rep)]
  }

  /** The controller is settled on `at`, with the refresh and poll timers running. */
  ghost predicate Settled(s: Sys, at: Endpoints) {
    && Quiet(s) && s.ctl.phase == Steady && P.TimerIs(s.ctl, Refresh) && s.ctl.poll && !s.ctl.discovering
    && Endpoints(s.ctl.data.b4, s.ctl.data.current.aftr) == at
  }

  /** ... and so is the datapath. */
  ghost predicate Resting(s: Sys, at: Endpoints) {
    Settled(s, at) && s.sw.active == at && !s.sw.migrating
  }

  /** A migration to `to` is in the given phase, nothing in flight but what the stage says. */
  ghost predicate MovingTo(s: Sys, phase: Phase, at: Endpoints, to: Addr) {
    && s.ctl.phase == phase && s.ctl.poll && !s.ctl.discovering
    && Endpoints(s.ctl.data.b4, s.ctl.data.current.aftr) == at && s.ctl.data.next.aftr == to
  }

  /** Steady, a request made and answered: nothing but `Answer` is on its way. */
  lemma Answered(c: Config, ends: Endpoints, s: Sys, op: Op, req: Request, readable: bool, source: Reply) returns (s': Sys)
    requires Reached(c, ends, s) && WellFormed(s.m) && OneRequest(s, op, req)
    ensures Reached(c, ends, s') && WellFormed(s'.m)
    ensures var r := Serve(s.sw, s.m, req, EnvOf(s, readable, source));
            && OneAnswer(s', op, r.rep) && s'.sw == r.sw && s'.m == ApplyAll(s.m, r.writes)
            && s'.ctl == s.ctl && s'.now == s.now && s'.flows == FlowsAfter(s, req, readable)
            && s'.h.seen == SeenAfter(r.writes, s.h.seen)
  {
    s' := Serves(c, ends, s, readable, source);
    ReachedInv(c, ends, s');
    var r := Serve(s.sw, s.m, req, EnvOf(s, readable, source));
    assert s.resps + [P.Answer(Tag(op, s.ctl.data.gen), r.rep)] == [P.Answer(Tag(op, s.ctl.data.gen), r.rep)];
  }

  lemma Waits(c: Config, ends: Endpoints, s: Sys, at: int) returns (s': Sys)
    requires Reached(c, ends, s) && WellFormed(s.m) && s.work == Idle
    ensures Reached(c, ends, s') && WellFormed(s'.m) && s'.now >= at && s'.now >= s.now
    ensures Raw(s') == Raw(s).(now := s'.now) && s'.work == Idle && s'.flows == s.flows && s'.h.seen == s.h.seen
  {
    var now := if at > s.now then at else s.now;
    s' := Controls(c, ends, s, P.Tick(now));
  }

  /** From startup: the controller recovers what is in use. */
  lemma Recovers(c: Config, ends: Endpoints) returns (s: Sys)
    requires ValidEndpoints(ends) && c.dynamicAftr && c.dynamicB4
    ensures Reached(c, ends, s) && Resting(s, ends) && s.flows == Flows(map[], 0, 0)
  {
    StartupReached(c, ends);
    var s1 := Answered(c, ends, Startup(ends), OpRecover, RecoverReq, true, NO_SOURCE);
    P.QuietTurn(c, Raw(s1));
    s := Controls(c, ends, s1, P.Deliver);
  }

  /** A discovery finds another AFTR, and the controller asks for a migration to it. */
  lemma Discovers(c: Config, ends: Endpoints, s: Sys, at: Endpoints, to: Addr) returns (s': Sys)
    requires Reached(c, ends, s) && WellFormed(s.m) && Settled(s, at) && to != at.aftr
    ensures Reached(c, ends, s') && WellFormed(s'.m) && MovingTo(s', Priming, at, to)
    ensures OneRequest(s', OpBegin, BeginReq(Endpoints(at.b4, to))) && s'.ctl.timer.None?
    ensures s'.sw == s.sw && s'.m == s.m && s'.flows == s.flows
  {
    var s1 := Waits(c, ends, s, s.ctl.timer.value.at);
    P.RefreshTurn(c, Raw(s1));
    var s2 := Controls(c, ends, s1, P.Fire);
    var rep := DiscoverRep(Discovery(to, 0, ""), true, 0);
    assert s2.ctl.phase == Discovering && P.Moves(s2.ctl.data, rep);
    Finds(c, s2, rep);
    s' := Controls(c, ends, s2, P.FinishDiscovery(rep));
  }

  lemma Finds(c: Config, s: Sys, rep: DiscoverRep)
    requires WellFormed(s.m) && s.ctl.phase == Discovering && s.ctl.discovering && s.reqs == [] && P.Moves(s.ctl.data, rep)
    ensures var s' := P.Next(c, Raw(s), P.FinishDiscovery(rep)); var d := s.ctl.data;
            && s' == Raw(s).(ctl := s'.ctl, reqs := s'.reqs)
            && s'.reqs == [P.Item(s.ctl.inc, Tag(OpBegin, d.gen), BeginReq(Endpoints(d.b4, rep.disc.aftr)))]
            && s'.ctl == s.ctl.(phase := Priming, timer := None, discovering := false, data := s'.ctl.data)
            && s'.ctl.data == d.(next := rep.disc, migration := d.migration + 1)
  {
    var d := s.ctl.data;
    P.SendingTurn(c, s.ctl.(discovering := false), AsyncResult(rep), s.now,
                  BeginReq(Endpoints(d.b4, rep.disc.aftr)), Tag(OpBegin, d.gen));
  }

  lemma BeginServed(s: Sys, to: Endpoints, env: Env)
    requires Inv(s) && s.work == Idle && !s.sw.migrating && ValidEndpoints(to) && env.readable
    ensures var r := Serve(s.sw, s.m, BeginReq(to), env);
            && r.rep == CountsRep(env.counts, true) && r.sw == Sw(s.sw.active, to, true)
            && ApplyAll(s.m, r.writes).ctrl.state == PRIMING
            && ApplyAll(s.m, r.writes).ctrl.epoch == (s.m.ctrl.epoch + 1) % 256
            && SeenAfter(r.writes, s.h.seen) == {}
  {
    AbsIdle(s);
    BeginOutcome(s.m, to);
    var ws := BeginPlan(s.m, to).value;
    assert ws == [ws[0], ws[1], ws[2]];
    StartsLast(ws[0], ws[1], ws[2], s.h.seen);
  }

  lemma StartsLast(a: Write, b: Write, w: Write, seen: set<FlowKey>)
    requires w.PutCtrl? && w.c.state == PRIMING
    ensures SeenAfter([a, b, w], seen) == {}
  {
    assert [a, b, w][1..] == [b, w] && [b, w][1..] == [w] && [w][1..] == [];
    assert forall any :: SeenAfter([w], any) == {};
    assert forall any :: SeenAfter([b, w], any) == {};
  }

  /** The softwire begins it, and priming is on. */
  lemma Begins(c: Config, ends: Endpoints, s: Sys, at: Endpoints, to: Addr) returns (s': Sys)
    requires Reached(c, ends, s) && WellFormed(s.m) && MovingTo(s, Priming, at, to) && s.sw.active == at && !s.sw.migrating
    requires OneRequest(s, OpBegin, BeginReq(Endpoints(at.b4, to))) && ValidEndpoints(Endpoints(at.b4, to))
    ensures Reached(c, ends, s') && WellFormed(s'.m) && Quiet(s') && MovingTo(s', Priming, at, to)
    ensures P.TimerIs(s'.ctl, Primed) && s'.m.ctrl.state == PRIMING && s'.sw.target == Endpoints(at.b4, to)
    ensures s'.flows == s.flows && s'.ctl.data.baseline.fails == s.flows.fails
    ensures s'.h.seen == {} && s'.m.ctrl.epoch == (s.m.ctrl.epoch + 1) % 256 && s'.sw.active == at
  {
    ReachedInv(c, ends, s);
    BeginServed(s, Endpoints(at.b4, to), EnvOf(s, true, NO_SOURCE));
    var s1 := Answered(c, ends, s, OpBegin, BeginReq(Endpoints(at.b4, to)), true, NO_SOURCE);
    s' := HearsBegun(c, ends, s1, at, to, Counts(s.flows.inserts, s.flows.fails));
  }

  lemma HearsBegun(c: Config, ends: Endpoints, s: Sys, at: Endpoints, to: Addr, counts: Counts) returns (s': Sys)
    requires Reached(c, ends, s) && WellFormed(s.m) && MovingTo(s, Priming, at, to)
    requires OneAnswer(s, OpBegin, CountsRep(counts, true))
    ensures Reached(c, ends, s') && Quiet(s') && MovingTo(s', Priming, at, to) && P.TimerIs(s'.ctl, Primed)
    ensures s'.ctl.data.baseline == counts && s'.sw == s.sw && s'.m == s.m && s'.flows == s.flows && s'.h.seen == s.h.seen
  {
    P.WaitingTurn(c, Raw(s), PRIMING_DURATION, Primed);
    s' := Controls(c, ends, s, P.Deliver);
  }

  /** Its minute is over, and the counters are read. */
  lemma ReadsCounts(c: Config, ends: Endpoints, s: Sys, at: Endpoints, to: Addr) returns (s': Sys)
    requires Reached(c, ends, s) && WellFormed(s.m) && Quiet(s) && MovingTo(s, Priming, at, to) && P.TimerIs(s.ctl, Primed)
    ensures Reached(c, ends, s') && WellFormed(s'.m) && MovingTo(s', Priming, at, to) && s'.ctl.timer.None?
    ensures OneAnswer(s', OpCounts, CountsRep(Counts(s.flows.inserts, s.flows.fails), true)) && s'.ctl.data == s.ctl.data
    ensures s'.sw == s.sw && s'.m == s.m && s'.flows == s.flows && s'.h.seen == s.h.seen
  {
    var s1 := Waits(c, ends, s, s.ctl.timer.value.at);
    P.AskTurn(c, Raw(s1), OpCounts, CountsReq);
    var s2 := Controls(c, ends, s1, P.Fire);
    s' := Answered(c, ends, s2, OpCounts, CountsReq, true, NO_SOURCE);
  }

  /** Its minute is over, no recording failed, and the controller asks to cut over. */
  lemma Primes(c: Config, ends: Endpoints, s: Sys, at: Endpoints, to: Addr) returns (s': Sys)
    requires Reached(c, ends, s) && WellFormed(s.m) && Quiet(s) && MovingTo(s, Priming, at, to)
    requires P.TimerIs(s.ctl, Primed) && s.flows.fails == s.ctl.data.baseline.fails
    ensures Reached(c, ends, s') && WellFormed(s'.m) && MovingTo(s', Priming, at, to)
    ensures OneRequest(s', OpCutover, CutoverReq) && s'.ctl.timer.None?
    ensures s'.sw == s.sw && s'.m == s.m && s'.flows == s.flows && s'.h.seen == s.h.seen
  {
    var s1 := ReadsCounts(c, ends, s, at, to);
    P.PrimingTurn(c, Raw(s1));
    s' := Controls(c, ends, s1, P.Deliver);
  }

  /** It is cut over, and the drain is on. */
  lemma CutsOver(c: Config, ends: Endpoints, s: Sys, at: Endpoints, to: Addr) returns (s': Sys)
    requires Reached(c, ends, s) && WellFormed(s.m) && MovingTo(s, Priming, at, to) && OneRequest(s, OpCutover, CutoverReq)
    requires s.m.ctrl.state == PRIMING && s.sw.target == Endpoints(at.b4, to)
    ensures Reached(c, ends, s') && WellFormed(s'.m) && Quiet(s') && MovingTo(s', Draining, at, to)
    ensures P.TimerIs(s'.ctl, DrainTick) && s'.sw.active == Endpoints(at.b4, to)
    ensures s'.m.ctrl == Ctrl(Other(s.m.ctrl.activeSlot), s.m.ctrl.activeSlot, DRAINING, s.m.ctrl.epoch)
    ensures s'.flows == s.flows && s'.h.seen == s.h.seen
    ensures P.Cap(s'.now + MAX_DRAIN_DURATION, s'.ctl.data.migration) in s'.ctl.caps
  {
    var s1 := Answered(c, ends, s, OpCutover, CutoverReq, true, NO_SOURCE);
    assert CutoverPlan(s.m).value[1..] == [];
    P.DrainingTurn(c, Raw(s1));
    s' := Controls(c, ends, s1, P.Deliver);
  }

  /** Nothing is left to drain, and the controller asks for its completion. */
  lemma Drains(c: Config, ends: Endpoints, s: Sys, at: Endpoints, to: Addr) returns (s': Sys)
    requires Reached(c, ends, s) && WellFormed(s.m) && Quiet(s) && MovingTo(s, Draining, at, to)
    requires P.TimerIs(s.ctl, DrainTick) && s.flows.table == map[]
    ensures Reached(c, ends, s') && WellFormed(s'.m) && MovingTo(s', Draining, at, to)
    ensures OneRequest(s', OpComplete, CompleteReq) && s'.sw == s.sw && s'.m == s.m && s'.flows.table == map[]
  {
    var s1 := Waits(c, ends, s, s.ctl.timer.value.at);
    P.AskTurn(c, Raw(s1), OpGc, GcReq);
    var s2 := Controls(c, ends, s1, P.Fire);
    assert Collect(s2.m.ctrl, s2.flows.table, s2.now, FLOW_IDLE) == map[];
    var s3 := Answered(c, ends, s2, OpGc, GcReq, true, NO_SOURCE);
    P.CompletesTurn(c, Raw(s3));
    s' := Controls(c, ends, s3, P.Deliver);
  }

  lemma Completes(c: Config, ends: Endpoints, s: Sys, at: Endpoints, to: Addr) returns (s': Sys)
    requires Reached(c, ends, s) && WellFormed(s.m) && MovingTo(s, Draining, at, to) && c.dynamicAftr
    requires OneRequest(s, OpComplete, CompleteReq) && s.m.ctrl.state == DRAINING && s.sw.active == Endpoints(at.b4, to)
    ensures Reached(c, ends, s') && Resting(s', Endpoints(at.b4, to)) && s'.flows == s.flows
  {
    var s1 := Answered(c, ends, s, OpComplete, CompleteReq, true, NO_SOURCE);
    s' := Finishes(c, ends, s1, at, to);
  }

  lemma Finishes(c: Config, ends: Endpoints, s: Sys, at: Endpoints, to: Addr) returns (s': Sys)
    requires Reached(c, ends, s) && WellFormed(s.m) && MovingTo(s, Draining, at, to) && c.dynamicAftr
    requires OneAnswer(s, OpComplete, DoneRep(true))
    ensures Reached(c, ends, s') && Settled(s', Endpoints(at.b4, to)) && s'.sw == s.sw && s'.flows == s.flows
  {
    P.QuietTurn(c, Raw(s));
    s' := Controls(c, ends, s, P.Deliver);
  }

  // ---------------------------------------------------------------- whole migrations

  /** An AFTR to migrate to. */
  predicate Another(at: Endpoints, to: Addr) {
    to != at.aftr && ValidEndpoints(Endpoints(at.b4, to))
  }

  /** ... for a controller started on `ends` that follows both ends of the softwire. */
  predicate CanMove(c: Config, ends: Endpoints, to: Addr) {
    ValidEndpoints(ends) && c.dynamicAftr && c.dynamicB4 && Another(ends, to)
  }

  /** From startup, a migration to any other AFTR can be begun. */
  lemma ReachesPriming(c: Config, ends: Endpoints, to: Addr) returns (s: Sys)
    requires CanMove(c, ends, to)
    ensures Reached(c, ends, s) && WellFormed(s.m) && Quiet(s) && MovingTo(s, Priming, ends, to)
    ensures P.TimerIs(s.ctl, Primed) && s.m.ctrl.state == PRIMING && s.sw.target == Endpoints(ends.b4, to)
    ensures s.flows == Flows(map[], 0, 0) && s.ctl.data.baseline.fails == 0 && s.sw.active == ends
  {
    var s0 := Recovers(c, ends);
    ReachedInv(c, ends, s0);
    var s1 := Discovers(c, ends, s0, ends, to);
    s := Begins(c, ends, s1, ends, to);
  }

  /** From rest on one pair a migration to any other AFTR can be brought to its drain. */
  lemma ReachesDrain(c: Config, ends: Endpoints, s: Sys, at: Endpoints, to: Addr) returns (s': Sys)
    requires Reached(c, ends, s) && WellFormed(s.m) && Resting(s, at) && Another(at, to)
    ensures Reached(c, ends, s') && WellFormed(s'.m) && Quiet(s') && MovingTo(s', Draining, at, to)
    ensures P.TimerIs(s'.ctl, DrainTick) && s'.m.ctrl.state == DRAINING && s'.sw.active == Endpoints(at.b4, to)
    ensures s'.flows == s.flows
  {
    var s1 := Discovers(c, ends, s, at, to);
    var s2 := Begins(c, ends, s1, at, to);
    var s3 := Primes(c, ends, s2, at, to);
    s' := CutsOver(c, ends, s3, at, to);
  }

  /** ... and to its end, at rest on the new pair, from where the next one can start. */
  lemma MigrationCompletes(c: Config, ends: Endpoints, s: Sys, at: Endpoints, to: Addr) returns (s': Sys)
    requires Reached(c, ends, s) && WellFormed(s.m) && Resting(s, at) && Another(at, to)
    requires c.dynamicAftr && s.flows.table == map[]
    ensures Reached(c, ends, s') && Resting(s', Endpoints(at.b4, to)) && s'.flows.table == map[]
  {
    var s1 := ReachesDrain(c, ends, s, at, to);
    var s2 := Drains(c, ends, s1, at, to);
    s' := Completes(c, ends, s2, at, to);
  }

  /** A flow seen in priming is recorded when the drain begins. */
  lemma ReachesDrainWith(c: Config, ends: Endpoints, to: Addr, inner: Inner) returns (s: Sys)
    requires CanMove(c, ends, to)
    ensures Reached(c, ends, s) && WellFormed(s.m) && Quiet(s) && MovingTo(s, Draining, ends, to)
    ensures P.TimerIs(s.ctl, DrainTick) && s.m.ctrl.state == DRAINING && s.m.ctrl.oldSlot != s.m.ctrl.activeSlot
    ensures s.flows.table.Keys == Current(s.m.ctrl, s.flows.table) == {BuildFlowKey(inner, false)}
    ensures P.Cap(s.now + MAX_DRAIN_DURATION, s.ctl.data.migration) in s.ctl.caps
  {
    var s1 := ReachesPriming(c, ends, to);
    var s2 := Records(c, ends, s1, inner);
    var s3 := Primes(c, ends, s2, ends, to);
    s := CutsOver(c, ends, s3, ends, to);
  }

  /** It leaves by the old slot, and one first seen in the drain by the new. */
  lemma FlowIsKept(c: Config, ends: Endpoints, to: Addr, inner: Inner, other: Inner) returns (s: Sys)
    requires CanMove(c, ends, to)
    requires BuildFlowKey(inner, false) != BuildFlowKey(other, false)
    ensures Reached(c, ends, s) && s.m.ctrl.state == DRAINING && s.m.ctrl.oldSlot != s.m.ctrl.activeSlot
    ensures forall room: bool ::
              && Pick(s.m.ctrl, s.flows, BuildFlowKey(inner, false), s.now, room).slot == s.m.ctrl.oldSlot
              && Pick(s.m.ctrl, s.flows, BuildFlowKey(other, false), s.now, room).slot == s.m.ctrl.activeSlot
  {
    s := ReachesDrainWith(c, ends, to, inner);
    KeptSlots(s.m.ctrl, s.flows, BuildFlowKey(inner, false), BuildFlowKey(other, false), s.now);
  }

  /** A flow that goes on for two hours: the drain's cap fires, and its completion is asked for while the flow
      is still pinned. */
  lemma CappedRun(c: Config, ends: Endpoints, to: Addr, inner: Inner) returns (s: Sys)
    requires CanMove(c, ends, to)
    ensures Reached(c, ends, s) && OneRequest(s, OpComplete, CompleteReq)
    ensures s.m.ctrl.state == DRAINING && BuildFlowKey(inner, false) in Current(s.m.ctrl, s.flows.table)
  {
    var s1 := ReachesDrainWith(c, ends, to, inner);
    var s2 := CapGoesOff(c, ends, s1, ends, to);
    var s3 := Refreshes(c, ends, s2, inner);
    var s4 := CollectsOne(c, ends, s3, ends, to, inner);
    P.CompletesTurn(c, Raw(s4));
    s := Controls(c, ends, s4, P.Deliver);
  }

  lemma CapGoesOff(c: Config, ends: Endpoints, s: Sys, at: Endpoints, to: Addr) returns (s': Sys)
    requires Reached(c, ends, s) && WellFormed(s.m) && Quiet(s) && MovingTo(s, Draining, at, to)
    requires P.TimerIs(s.ctl, DrainTick) && P.Cap(s.now + MAX_DRAIN_DURATION, s.ctl.data.migration) in s.ctl.caps
    ensures Reached(c, ends, s') && WellFormed(s'.m) && Quiet(s') && MovingTo(s', Draining, at, to)
    ensures P.TimerIs(s'.ctl, DrainTick) && s'.ctl.timer.value.at <= s'.now && s'.ctl.data.capReached
    ensures s'.m == s.m && s'.flows == s.flows
  {
    var cap := P.Cap(s.now + MAX_DRAIN_DURATION, s.ctl.data.migration);
    var s1 := Waits(c, ends, s, cap.at);
    var s2 := Waits(c, ends, s1, s.ctl.timer.value.at);
    P.CapTurn(c, Raw(s2), cap);
    s' := Controls(c, ends, s2, P.FireCap(cap));
  }

  /** A packet of a current flow, in a drain. */
  lemma Refreshes(c: Config, ends: Endpoints, s: Sys, inner: Inner) returns (s': Sys)
    requires Reached(c, ends, s) && WellFormed(s.m) && s.m.ctrl.state == DRAINING
    requires s.flows.table.Keys == Current(s.m.ctrl, s.flows.table) == {BuildFlowKey(inner, false)}
    ensures Reached(c, ends, s') && s' == s.(flows := s'.flows)
    ensures s'.flows.table == map[BuildFlowKey(inner, false) := Affinity(s.now, s.m.ctrl.epoch)]
  {
    s' := Next(c, s, Encap(inner, true));
    ReachedNext(c, ends, s, Encap(inner, true));
  }

  lemma CollectsOne(c: Config, ends: Endpoints, s: Sys, at: Endpoints, to: Addr, inner: Inner) returns (s': Sys)
    requires Reached(c, ends, s) && WellFormed(s.m) && Quiet(s) && MovingTo(s, Draining, at, to)
    requires P.TimerIs(s.ctl, DrainTick) && s.ctl.timer.value.at <= s.now && s.ctl.data.capReached
    requires s.m.ctrl.state == DRAINING
    requires s.flows.table == map[BuildFlowKey(inner, false) := Affinity(s.now, s.m.ctrl.epoch)]
    ensures Reached(c, ends, s') && WellFormed(s'.m) && MovingTo(s', Draining, at, to) && s'.ctl.data.capReached
    ensures OneAnswer(s', OpGc, GcRep(1, true)) && s'.m == s.m && s'.flows.table == s.flows.table
  {
    P.AskTurn(c, Raw(s), OpGc, GcReq);
    var s1 := Controls(c, ends, s, P.Fire);
    assert Collect(s1.m.ctrl, s1.flows.table, s1.now, FLOW_IDLE) == s.flows.table;
    assert |s.flows.table| == 1;
    s' := Answered(c, ends, s1, OpGc, GcReq, true, NO_SOURCE);
  }

  /** A packet in priming, with room for its flow. */
  lemma Records(c: Config, ends: Endpoints, s: Sys, inner: Inner) returns (s': Sys)
    requires Reached(c, ends, s) && WellFormed(s.m) && s.m.ctrl.state == PRIMING && s.flows.table == map[]
    ensures Reached(c, ends, s') && s' == s.(flows := s'.flows, h := s'.h) && s'.flows.fails == s.flows.fails
    ensures s'.flows.table == map[BuildFlowKey(inner, false) := Affinity(s.now, s.m.ctrl.epoch)]
  {
    s' := Next(c, s, Encap(inner, true));
    ReachedNext(c, ends, s, Encap(inner, true));
  }

  lemma KeptSlots(c: Ctrl, f: Flows, key: FlowKey, other: FlowKey, now: nat)
    requires c.state == DRAINING && key in f.table && f.table[key].epoch == c.epoch && other !in f.table
    ensures forall room: bool ::
              Pick(c, f, key, now, room).slot == c.oldSlot && Pick(c, f, other, now, room).slot == c.activeSlot
  {
  }

  /** A flow first handled between the reading of the counters and the cutover, with no room for it: the run
      that LateFlowIsMissed speaks of. */
  lemma LateFlowRun(c: Config, ends: Endpoints, to: Addr, inner: Inner) returns (s: Sys)
    requires CanMove(c, ends, to)
    ensures Reached(c, ends, s) && s.m.ctrl.state == DRAINING
    ensures BuildFlowKey(inner, false) in s.h.seen && BuildFlowKey(inner, false) !in s.flows.table
  {
    var s1 := ReachesPriming(c, ends, to);
    var s2 := Primes(c, ends, s1, ends, to);
    s := CutsOverLate(c, ends, s2, inner);
  }

  lemma CutsOverLate(c: Config, ends: Endpoints, s: Sys, inner: Inner) returns (s': Sys)
    requires Reached(c, ends, s) && WellFormed(s.m) && OneRequest(s, OpCutover, CutoverReq) && s.m.ctrl.state == PRIMING
    requires BuildFlowKey(inner, false) !in s.flows.table
    ensures Reached(c, ends, s') && s'.m.ctrl.state == DRAINING
    ensures BuildFlowKey(inner, false) in s'.h.seen && BuildFlowKey(inner, false) !in s'.flows.table
  {
    var s1 := TakesUp(c, ends, s);
    ReachedInv(c, ends, s1);
    var s2 := Next(c, s1, Encap(inner, false));
    LateFlowIsMissed(c, s1, inner);
    ReachedNext(c, ends, s1, Encap(inner, false));
    ReachedNext(c, ends, s2, WriteOne);
    s' := Next(c, s2, WriteOne);
    assert s'.h.seen == s2.h.seen;
  }

  lemma TakesUp(c: Config, ends: Endpoints, s: Sys) returns (s': Sys)
    requires Reached(c, ends, s) && WellFormed(s.m) && OneRequest(s, OpCutover, CutoverReq) && s.m.ctrl.state == PRIMING
    ensures Reached(c, ends, s') && s'.flows == s.flows
    ensures s'.work.Busy? && s'.work.writes != [] && s'.work.item.req == CutoverReq
  {
    var start := Start(true, NO_SOURCE);
    s' := Next(c, s, start);
    ReachedNext(c, ends, s, start);
  }

  // ---------------------------------------------------------------- the epoch comes round

  /** A packet in priming, with no room for its flow. */
  lemma FailsToRecord(c: Config, ends: Endpoints, s: Sys, inner: Inner) returns (s': Sys)
    requires Reached(c, ends, s) && WellFormed(s.m) && s.m.ctrl.state == PRIMING
    requires BuildFlowKey(inner, false) !in s.flows.table
    ensures Reached(c, ends, s') && s' == s.(flows := s.flows.(fails := s.flows.fails + 1), h := s'.h)
  {
    s' := Next(c, s, Encap(inner, false));
    ReachedNext(c, ends, s, Encap(inner, false));
  }

  /** A pass in which a recording failed is rolled back. */
  lemma AsksAbort(c: Config, ends: Endpoints, s: Sys, at: Endpoints, to: Addr) returns (s': Sys)
    requires Reached(c, ends, s) && WellFormed(s.m) && Quiet(s) && MovingTo(s, Priming, at, to)
    requires P.TimerIs(s.ctl, Primed) && s.flows.fails != s.ctl.data.baseline.fails
    ensures Reached(c, ends, s') && WellFormed(s'.m) && MovingTo(s', Priming, at, to) && OneRequest(s', OpAbort, AbortReq)
    ensures s'.sw == s.sw && s'.m == s.m && s'.flows == s.flows
  {
    var s1 := ReadsCounts(c, ends, s, at, to);
    P.PrimingTurn(c, Raw(s1));
    s' := Controls(c, ends, s1, P.Deliver);
  }

  lemma Aborts(c: Config, ends: Endpoints, s: Sys, at: Endpoints, to: Addr) returns (s': Sys)
    requires Reached(c, ends, s) && WellFormed(s.m) && MovingTo(s, Priming, at, to) && OneRequest(s, OpAbort, AbortReq)
    requires s.m.ctrl.state == PRIMING && s.sw.active == at && c.dynamicAftr
    ensures Reached(c, ends, s') && WellFormed(s'.m) && Resting(s', at) && s'.flows == s.flows
    ensures s'.m.ctrl.epoch == s.m.ctrl.epoch
  {
    ReachedInv(c, ends, s);
    AbortServed(s, EnvOf(s, true, NO_SOURCE));
    var s1 := Answered(c, ends, s, OpAbort, AbortReq, true, NO_SOURCE);
    s' := HearsAborted(c, ends, s1, at, to);
  }

  lemma HearsAborted(c: Config, ends: Endpoints, s: Sys, at: Endpoints, to: Addr) returns (s': Sys)
    requires Reached(c, ends, s) && WellFormed(s.m) && MovingTo(s, Priming, at, to) && c.dynamicAftr
    requires OneAnswer(s, OpAbort, DoneRep(true))
    ensures Reached(c, ends, s') && Settled(s', at) && s'.sw == s.sw && s'.m == s.m && s'.flows == s.flows
  {
    P.QuietTurn(c, Raw(s));
    s' := Controls(c, ends, s, P.Deliver);
  }

  lemma AbortServed(s: Sys, env: Env)
    requires Inv(s) && s.work == Idle && s.m.ctrl.state == PRIMING && env.readable
    ensures var r := Serve(s.sw, s.m, AbortReq, env);
            && r.rep == DoneRep(true) && r.sw == s.sw.(migrating := false)
            && ApplyAll(s.m, r.writes).ctrl.epoch == s.m.ctrl.epoch
  {
    AbsIdle(s);
    AbortOutcome(s.m);
  }

  /** One pass begun and rolled back: the table stays, the epoch goes on by one. */
  lemma RollsBack(c: Config, ends: Endpoints, s: Sys, at: Endpoints, to: Addr, late: Inner) returns (s': Sys)
    requires Reached(c, ends, s) && WellFormed(s.m) && Resting(s, at) && Another(at, to)
    requires c.dynamicAftr && BuildFlowKey(late, false) !in s.flows.table
    ensures Reached(c, ends, s') && WellFormed(s'.m) && Resting(s', at) && s'.flows.table == s.flows.table
    ensures s'.m.ctrl.epoch == (s.m.ctrl.epoch + 1) % 256
  {
    var s1 := Discovers(c, ends, s, at, to);
    var s2 := Begins(c, ends, s1, at, to);
    var s3 := FailsToRecord(c, ends, s2, late);
    var s4 := AsksAbort(c, ends, s3, at, to);
    s' := Aborts(c, ends, s4, at, to);
  }

  lemma {:induction false} RollsBackOften(c: Config, ends: Endpoints, s: Sys, at: Endpoints, to: Addr, late: Inner, n: nat)
    returns (s': Sys)
    requires Reached(c, ends, s) && WellFormed(s.m) && Resting(s, at) && Another(at, to)
    requires c.dynamicAftr && BuildFlowKey(late, false) !in s.flows.table
    ensures Reached(c, ends, s') && WellFormed(s'.m) && Resting(s', at) && s'.flows.table == s.flows.table
    ensures s'.m.ctrl.epoch == (s.m.ctrl.epoch + n) % 256
    decreases n
  {
    if n == 0 {
      s' := s;
    } else {
      var s1 := RollsBackOften(c, ends, s, at, to, late, n - 1);
      s' := RollsBack(c, ends, s1, at, to, late);
      NextEpoch(s.m.ctrl.epoch, n);
    }
  }

  lemma NextEpoch(e: nat, n: nat)
    requires n > 0
    ensures ((e + (n - 1)) % 256 + 1) % 256 == (e + n) % 256
  {
  }

  /** A flow recorded in a first pass that is rolled back, and silent since; `n` more passes rolled back; then
      a migration. In its drain the flow leaves by the old slot, though it was not seen in this pass,
      exactly when `n + 1` is a multiple of 256. */
  lemma EpochRun(c: Config, ends: Endpoints, to: Addr, inner: Inner, late: Inner, n: nat) returns (s: Sys)
    requires CanMove(c, ends, to)
    requires BuildFlowKey(inner, false) != BuildFlowKey(late, false)
    ensures Reached(c, ends, s) && s.m.ctrl.state == DRAINING && s.m.ctrl.oldSlot != s.m.ctrl.activeSlot && s.h.seen == {}
    ensures forall room: bool ::
              Pick(s.m.ctrl, s.flows, BuildFlowKey(inner, false), s.now, room).slot == s.m.ctrl.oldSlot
              <==> (n + 1) % 256 == 0
  {
    var key := BuildFlowKey(inner, false);
    var s1 := FirstPass(c, ends, to, inner, late);
    var s2 := RollsBackOften(c, ends, s1, ends, to, late, n);
    var s3 := DrainsUnseen(c, ends, s2, ends, to);
    s := s3;
    Epochs(s1.m.ctrl.epoch, n);
    assert s.flows.table[key].epoch == s1.m.ctrl.epoch;
  }

  lemma Epochs(e: nat, n: nat)
    requires e < 256
    ensures ((e + n) % 256 + 1) % 256 == e <==> (n + 1) % 256 == 0
  {
  }

  /** The first pass: the flow is recorded, another is not, and so it is rolled back. */
  lemma FirstPass(c: Config, ends: Endpoints, to: Addr, inner: Inner, late: Inner) returns (s: Sys)
    requires CanMove(c, ends, to)
    requires BuildFlowKey(inner, false) != BuildFlowKey(late, false)
    ensures Reached(c, ends, s) && WellFormed(s.m) && Resting(s, ends) && s.m.ctrl.epoch < 256
    ensures s.flows.table.Keys == {BuildFlowKey(inner, false)}
    ensures s.flows.table[BuildFlowKey(inner, false)].epoch == s.m.ctrl.epoch
  {
    var s1 := ReachesPriming(c, ends, to);
    var s2 := Records(c, ends, s1, inner);
    var s3 := FailsToRecord(c, ends, s2, late);
    var s4 := AsksAbort(c, ends, s3, ends, to);
    s := Aborts(c, ends, s4, ends, to);
  }

  /** A migration in which no packet is seen, to its drain. */
  lemma DrainsUnseen(c: Config, ends: Endpoints, s: Sys, at: Endpoints, to: Addr) returns (s': Sys)
    requires Reached(c, ends, s) && WellFormed(s.m) && Resting(s, at) && Another(at, to)
    ensures Reached(c, ends, s') && s'.m.ctrl.state == DRAINING && s'.m.ctrl.oldSlot != s'.m.ctrl.activeSlot
    ensures s'.h.seen == {} && s'.flows == s.flows && s'.m.ctrl.epoch == (s.m.ctrl.epoch + 1) % 256
  {
    var s1 := Discovers(c, ends, s, at, to);
    var s2 := Begins(c, ends, s1, at, to);
    var s3 := Primes(c, ends, s2, at, to);
    s' := CutsOver(c, ends, s3, at, to);
  }

  // ---------------------------------------------------------------- the refused hard switch

  /** A poll in a drain learns of another B4. */
  lemma LearnsB4(c: Config, ends: Endpoints, s: Sys, at: Endpoints, to: Addr, b4: Addr) returns (s': Sys)
    requires Reached(c, ends, s) && WellFormed(s.m) && Quiet(s) && MovingTo(s, Draining, at, to)
    ensures Reached(c, ends, s') && WellFormed(s'.m) && MovingTo(s', Draining, at, to)
    ensures OneAnswer(s', OpSource, SourceRep(b4, true, true)) && s'.sw == s.sw && s'.m == s.m && s'.flows == s.flows
  {
    Polls(c, s);
    var s1 := Controls(c, ends, s, P.FirePoll);
    s' := Answered(c, ends, s1, OpSource, SourceReq(s.ctl.data.current.aftr), true, SourceRep(b4, true, true));
  }

  lemma Polls(c: Config, s: Sys)
    requires WellFormed(s.m) && s.ctl.poll && s.ctl.phase != Switching && s.reqs == []
    ensures P.Next(c, Raw(s), P.FirePoll)
            == Raw(s).(reqs := [P.Item(s.ctl.inc, Tag(OpSource, s.ctl.data.gen), SourceReq(s.ctl.data.current.aftr))])
  {
    var e := SendTo(OpSource, s.ctl.data.gen, SourceReq(s.ctl.data.current.aftr));
    P.ActTwo(P.Acted(s.ctl.(poll := false), [], false), e, StartTimeout(B4PollTimer, B4_POLL_INTERVAL, B4Poll), s.now);
  }

  lemma LeavesDrain(c: Config, ends: Endpoints, s: Sys, at: Endpoints, to: Addr, b4: Addr) returns (s': Sys)
    requires Reached(c, ends, s) && WellFormed(s.m) && MovingTo(s, Draining, at, to)
    requires OneAnswer(s, OpSource, SourceRep(b4, true, true)) && UsableB4(b4) && b4 != at.b4
    ensures Reached(c, ends, s') && s'.ctl.phase == Switching && s'.ctl.poll && !s'.ctl.discovering
    ensures OneRequest(s', OpSwitch, SwitchReq(Endpoints(b4, to)))
    ensures Endpoints(s'.ctl.data.b4, s'.ctl.data.current.aftr) == at && s'.sw == s.sw && s'.m == s.m && s'.flows == s.flows
  {
    var it := P.HardSwitchItem(c, Raw(s));
    s' := Controls(c, ends, s, P.Deliver);
  }

  /** The hard switch to it is refused: the controller settles where it was, and the drain goes on. */
  lemma SwitchIsRefused(c: Config, ends: Endpoints, s: Sys, at: Endpoints, to: Addr, b4: Addr) returns (s': Sys)
    requires Reached(c, ends, s) && WellFormed(s.m) && MovingTo(s, Draining, at, to) && c.dynamicAftr
    requires OneAnswer(s, OpSource, SourceRep(b4, true, true)) && UsableB4(b4) && b4.Is4In6() && b4 != at.b4
    ensures Reached(c, ends, s') && WellFormed(s'.m) && Settled(s', at)
    ensures s'.sw == s.sw && s'.m == s.m && s'.flows == s.flows
  {
    var s1 := LeavesDrain(c, ends, s, at, to, b4);
    var s2 := Answered(c, ends, s1, OpSwitch, SwitchReq(Endpoints(b4, to)), true, NO_SOURCE);
    P.QuietTurn(c, Raw(s2));
    s' := Controls(c, ends, s2, P.Deliver);
  }

  /** A run for every pair and every mapped B4: the controller takes itself to be on the AFTR it was leaving,
      while new flows go to the next one. */
  lemma DisagreementRun(c: Config, ends: Endpoints, to: Addr, b4: Addr) returns (s: Sys)
    requires CanMove(c, ends, to)
    requires UsableB4(b4) && b4.Is4In6()
    ensures Reached(c, ends, s) && WellFormed(s.m) && Settled(s, ends) && s.m.ctrl.state == DRAINING
    ensures Believed(s.ctl) == Some(ends) && s.m.hops[s.m.ctrl.activeSlot] == NextHop(true, Endpoints(ends.b4, to))
  {
    var s0 := Recovers(c, ends);
    ReachedInv(c, ends, s0);
    var s1 := ReachesDrain(c, ends, s0, ends, to);
    var s2 := LearnsB4(c, ends, s1, ends, to, b4);
    s := SwitchIsRefused(c, ends, s2, ends, to, b4);
    ReachedInv(c, ends, s);
    AbsIdle(s);
  }

  /** ... and its next migration finds the datapath in DRAINING, and is refused. */
  lemma MisledRun(c: Config, ends: Endpoints, to: Addr, b4: Addr) returns (s: Sys)
    requires CanMove(c, ends, to)
    requires UsableB4(b4) && b4.Is4In6()
    ensures Reached(c, ends, s) && WellFormed(s.m) && OneRequest(s, OpBegin, BeginReq(Endpoints(ends.b4, to)))
    ensures s.m.ctrl.state == DRAINING
    ensures forall env :: var r := Serve(s.sw, s.m, s.reqs[0].req, env); !r.rep.ok && r.writes == []
  {
    var s0 := DisagreementRun(c, ends, to, b4);
    s := Discovers(c, ends, s0, ends, to);
  }
}
