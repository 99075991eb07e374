/** Whether traffic is where the controller takes it to be: exactly unless a cutover was made of which
    the controller did not learn the outcome. */
module Placement {
  import opened Addresses
  import opened Datapath
  import opened Controlling
  import opened Serving
  import opened Protocol

  /** The record `moved`: a cutover was carried out, and since then the controller has neither heard of the
      completion of its drain nor has a hard switch or a recovery gone through. */
  ghost predicate MovedAfter(c: Config, s: State, moved: bool, step: Step)
    requires WellFormed(s.m) && Enabled(s, step)
  {
    if step.Handle? then MovedServing(s.reqs[0].req, Serve(s.sw, s.m, s.reqs[0].req, step.env).rep, moved)
    else MovedRunning(s.ctl.phase, Next(c, s, step).ctl.phase, moved)
  }

  predicate MovedServing(req: Request, rep: Reply, moved: bool) {
    if rep.ok && req == CutoverReq then true else if rep.ok && EndsAll(req) then false else moved
  }

  predicate MovedRunning(was: Phase, now: Phase, moved: bool) {
    moved && !(was == Draining && now == Steady)
  }

  predicate OnCurrent(s: State) {
    s.sw.active == Endpoints(s.ctl.data.b4, s.ctl.data.current.aftr)
  }

  /** Before a hard switch at most one request is still to be served; if it cuts over, then away from where
      the controller takes traffic to be. */
  ghost predicate Before(s: State) {
    var ops := Ops(s.reqs);
    && |ops| <= 2
    && (|ops| == 2 ==>
          && !EndsAll(ops[0].req)
          && (ops[0].req == CutoverReq ==> s.sw.target != Endpoints(s.ctl.data.b4, s.ctl.data.current.aftr)))
  }

  ghost predicate Placed(s: State, moved: bool) {
    var f := FlightOf(s);
    match s.ctl.phase
    case Recovering => f.Answered? && f.rep.ok ==> !moved
    case Steady => OnCurrent(s) <==> !moved
    case Discovering => OnCurrent(s) <==> !moved
    case Priming => if Begun(f) && s.m.ctrl.state == DRAINING then moved else OnCurrent(s) <==> !moved
    case Draining => moved
    case Switching =>
      if f == Answered(OpSwitch, DoneRep(true)) then !moved
      else (OnCurrent(s) <==> !moved) && (f.Waiting? ==> Before(s))
  }

  lemma InitPlaced(s: State, ends: Endpoints)
    requires Init(s, ends)
    ensures Placed(s, false)
  {
  }

  lemma PlacedFrame(s: State, s': State, moved: bool)
    requires Placed(s, moved) && FlightOf(s') == FlightOf(s) && Ops(s'.reqs) == Ops(s.reqs)
    requires s'.sw == s.sw && s'.m == s.m && s'.ctl.phase == s.ctl.phase
    requires s'.ctl.data.b4 == s.ctl.data.b4 && s'.ctl.data.current == s.ctl.data.current
    ensures Placed(s', moved)
  {
  }

  // ---------------------------------------------------------------- timers and discovery

  lemma PlacedFire(c: Config, s: State, moved: bool)
    requires Inv(s) && Enabled(s, Fire) && Placed(s, moved)
    ensures Placed(Next(c, s, Fire), MovedAfter(c, s, moved, Fire))
  {
    match s.ctl.timer.value.msg
    case Refresh =>
      RefreshTurn(c, s);
      QueuesFrame(s, Next(c, s, Fire));
    case Primed => PlacedAsk(c, s, moved, OpCounts, CountsReq);
    case DrainTick => PlacedAsk(c, s, moved, OpGc, GcReq);
    case _ =>
  }

  lemma PlacedAsk(c: Config, s: State, moved: bool, op: Op, req: Request)
    requires Inv(s) && Enabled(s, Fire) && Placed(s, moved)
    requires (s.ctl.timer.value.msg, op, req) in {(Primed, OpCounts, CountsReq), (DrainTick, OpGc, GcReq)}
    ensures Placed(Next(c, s, Fire), MovedAfter(c, s, moved, Fire))
  {
    AskTurn(c, s, op, req);
    AskedWhileQuiet(s, Next(c, s, Fire), Item(s.ctl.inc, Tag(op, s.ctl.data.gen), req));
  }

  lemma PlacedPoll(c: Config, s: State, moved: bool)
    requires Inv(s) && Enabled(s, FirePoll) && Placed(s, moved)
    ensures Placed(Next(c, s, FirePoll), MovedAfter(c, s, moved, FirePoll))
  {
    PollTurn(c, s);
    var s' := Next(c, s, FirePoll);
    if s' != s {
      var it :| IsSource(it) && it.req.SourceReq? && Mine(s.ctl, it) && s' == s.(reqs := s.reqs + [it]);
      AskedSource(s, s', it);
      OpsAppend(s.reqs, it);
      assert Ops(s.reqs) + [] == Ops(s.reqs);
      PlacedFrame(s, s', moved);
    }
  }

  lemma PlacedDiscovery(c: Config, s: State, moved: bool, rep: DiscoverRep)
    requires Inv(s) && Enabled(s, FinishDiscovery(rep)) && Placed(s, moved)
    ensures Placed(Next(c, s, FinishDiscovery(rep)), MovedAfter(c, s, moved, FinishDiscovery(rep)))
  {
    DiscoveryTurn(c, s, rep);
    var s', d := Next(c, s, FinishDiscovery(rep)), s.ctl.data;
    if Moves(d, rep) {
      AskedWhileQuiet(s, s', Item(s.ctl.inc, Tag(OpBegin, d.gen), BeginReq(Endpoints(d.b4, rep.disc.aftr))));
    }
  }

  // ---------------------------------------------------------------- answers

  lemma PlacedIdle(c: Config, s: State, moved: bool)
    requires Inv(s) && s.resps != [] && Placed(s, moved) && Next(c, s, Deliver) == Taken(s)
    requires s.resps[0].tag.gen != s.ctl.data.gen || s.resps[0].tag.op == OpSource
    ensures Placed(Next(c, s, Deliver), MovedAfter(c, s, moved, Deliver))
  {
    var s' := Taken(s);
    assert Live(s'.resps, s.ctl.data.gen) == Live(s.resps, s.ctl.data.gen);
    PlacedFrame(s, s', moved);
  }

  lemma SingleOp(s: State)
    requires Inv(s) && s.ctl.phase != Recovering && s.ctl.phase != Switching
    ensures |Ops(s.reqs)| <= 1
    ensures Ops(s.reqs) != [] ==> !EndsAll(Ops(s.reqs)[0].req) && FlightOf(s) == Waiting(Ops(s.reqs)[0].req, true)
  {
  }

  /** A hard switch leaves traffic where it is, and the controller's idea of it as it was. */
  lemma PlacedLeaving(s: State, s': State, moved: bool, it: Item)
    requires Inv(s) && Placed(s, moved) && s.ctl.phase != Recovering && s.ctl.phase != Switching
    requires s'.sw == s.sw && s'.m == s.m && s'.ctl.phase == Switching
    requires s'.ctl.data.b4 == s.ctl.data.b4 && s'.ctl.data.current == s.ctl.data.current
    requires it.req.SwitchReq? && Ops(s'.reqs) == Ops(s.reqs) + [it] && FlightOf(s').Waiting?
    ensures Placed(s', moved)
  {
    SingleOp(s);
  }

  lemma PlacedSource(c: Config, s: State, moved: bool)
    requires Inv(s) && s.resps != [] && s.resps[0].tag == Tag(OpSource, s.ctl.data.gen) && Placed(s, moved)
    ensures Placed(Next(c, s, Deliver), MovedAfter(c, s, moved, Deliver))
  {
    if FrontTurn(c, s) == Turn(s.ctl.phase, s.ctl.data, []) {
      IdleTurn(c, s);
      PlacedIdle(c, s, moved);
    } else {
      assert s.ctl.phase != Recovering && s.ctl.phase != Switching by { assert s.resps[0] in s.resps; }
      var it := HardSwitchItem(c, s);
      OpsAppend(s.reqs, it);
      SwitchesHard(s, Next(c, s, Deliver), it);
      PlacedLeaving(s, Next(c, s, Deliver), moved, it);
    }
  }

  lemma PlacedOutside(c: Config, s: State, moved: bool)
    requires Inv(s) && s.resps != [] && s.resps[0].tag.gen == s.ctl.data.gen && s.resps[0].tag.op != OpSource
    requires s.ctl.phase != Priming && s.ctl.phase != Draining && Placed(s, moved)
    ensures Placed(Next(c, s, Deliver), MovedAfter(c, s, moved, Deliver))
  {
    TakenLive(s);
    OutsideFront(s);
    if s.ctl.phase == Recovering && !s.resps[0].rep.ok {
      RecoverStops(c, s);
      assert Live([], 0) == [];
    } else {
      OutsideTurn(c, s);
    }
  }

  lemma PlacedPriming(c: Config, s: State, moved: bool)
    requires Inv(s) && s.resps != [] && s.resps[0].tag.gen == s.ctl.data.gen && s.resps[0].tag.op != OpSource
    requires s.ctl.phase == Priming && Placed(s, moved)
    ensures Placed(Next(c, s, Deliver), MovedAfter(c, s, moved, Deliver))
  {
    TakenLive(s);
    var op, rep := s.resps[0].tag.op, s.resps[0].rep;
    if op == OpCounts || (op == OpCutover && !rep.ok) {
      PrimingFront(s);
      PrimingTurn(c, s);
    } else if op == OpAbort || (op == OpBegin && !rep.ok) {
      PlacedBack(c, s, moved);
    } else if op == OpBegin {
      WaitingTurn(c, s, PRIMING_DURATION, Primed);
    } else {
      DrainingTurn(c, s);
    }
  }

  lemma PlacedBack(c: Config, s: State, moved: bool)
    requires Inv(s) && s.resps != [] && s.resps[0].tag.gen == s.ctl.data.gen && s.ctl.phase == Priming && Placed(s, moved)
    requires s.resps[0].tag.op == OpAbort || (s.resps[0].tag.op == OpBegin && !s.resps[0].rep.ok)
    ensures Placed(Next(c, s, Deliver), MovedAfter(c, s, moved, Deliver))
  {
    TakenLive(s);
    QuietTurn(c, s);
  }

  lemma PlacedDraining(c: Config, s: State, moved: bool)
    requires Inv(s) && s.resps != [] && s.resps[0].tag.gen == s.ctl.data.gen && s.resps[0].tag.op != OpSource
    requires s.ctl.phase == Draining && Placed(s, moved)
    ensures Placed(Next(c, s, Deliver), MovedAfter(c, s, moved, Deliver))
  {
    DrainingFront(s);
    if s.resps[0].tag.op == OpComplete && s.resps[0].rep.ok {
      CompletedTurn(c, s);
    } else if Done(s) {
      CompletesTurn(c, s);
    } else {
      DrainsOnTurn(c, s);
    }
  }

  lemma PlacedDeliver(c: Config, s: State, moved: bool)
    requires Inv(s) && Enabled(s, Deliver) && Placed(s, moved)
    ensures Placed(Next(c, s, Deliver), MovedAfter(c, s, moved, Deliver))
  {
    var tag := s.resps[0].tag;
    if tag.gen != s.ctl.data.gen {
      IdleTurn(c, s);
      PlacedIdle(c, s, moved);
    } else if tag.op == OpSource {
      PlacedSource(c, s, moved);
    } else if s.ctl.phase == Priming {
      PlacedPriming(c, s, moved);
    } else if s.ctl.phase == Draining {
      PlacedDraining(c, s, moved);
    } else {
      PlacedOutside(c, s, moved);
    }
  }

  // ---------------------------------------------------------------- requests

  /** The softwire has served `req`, of the running controller. */
  lemma PlacedAnswered(s: State, s': State, moved: bool, req: Request, op: Op, env: Env)
    requires WellFormed(s.m) && Answers(s, s', req, op, env) && InOrder(req, s.m.ctrl.state, true) && !req.SourceReq?
    requires Placed(s, moved)
    ensures Placed(s', MovedServing(req, Serve(s.sw, s.m, req, env).rep, moved))
  {
    if EndsAll(req) {
      PlacedSettling(s, s', moved, req, op, env);
    } else {
      ServeResult(s.sw, s.m, req, env);
    }
  }

  lemma PlacedSettling(s: State, s': State, moved: bool, req: Request, op: Op, env: Env)
    requires WellFormed(s.m) && Answers(s, s', req, op, env) && EndsAll(req) && Placed(s, moved)
    ensures Placed(s', MovedServing(req, Serve(s.sw, s.m, req, env).rep, moved))
  {
    ServeResult(s.sw, s.m, req, env);
  }

  /** ... or of an earlier life or generation. */
  lemma PlacedStale(s: State, s': State, moved: bool, req: Request, env: Env)
    requires Shape(s.sw, s.m) && PhaseKnows(s) && InOrder(req, s.m.ctrl.state, true) && Placed(s, moved)
    requires FlightOf(s).Waiting? && !FlightOf(s).alone && FlightOf(s').Waiting?
    requires Ops(s.reqs) != [] && req == Ops(s.reqs)[0].req && Ops(s'.reqs) == Ops(s.reqs)[1..]
    requires s'.ctl == s.ctl && s'.sw == Serve(s.sw, s.m, req, env).sw
    ensures Placed(s', MovedServing(req, Serve(s.sw, s.m, req, env).rep, moved))
  {
    ServeResult(s.sw, s.m, req, env);
  }

  lemma PlacedOp(c: Config, s: State, moved: bool, env: Env)
    requires Inv(s) && Enabled(s, Handle(env)) && Placed(s, moved) && !IsSource(s.reqs[0])
    ensures Placed(Next(c, s, Handle(env)), MovedAfter(c, s, moved, Handle(env)))
  {
    var it, s' := s.reqs[0], Next(c, s, Handle(env));
    assert it in s.reqs && Matches(it.tag.op, it.req);
    HandleQueues(s, s', Answer(it.tag, Serve(s.sw, s.m, it.req, env).rep));
    if Mine(s.ctl, it) {
      PlacedAnswered(s, s', moved, it.req, it.tag.op, env);
    } else {
      assert Ops(s.reqs) == [it] + Ops(s'.reqs);
      PlacedStale(s, s', moved, it.req, env);
    }
  }

  lemma PlacedQuery(c: Config, s: State, moved: bool, env: Env)
    requires Inv(s) && Enabled(s, Handle(env)) && Placed(s, moved) && IsSource(s.reqs[0])
    ensures Placed(Next(c, s, Handle(env)), MovedAfter(c, s, moved, Handle(env)))
  {
    var it, s' := s.reqs[0], Next(c, s, Handle(env));
    assert it in s.reqs && it.req.SourceReq?;
    SourceQueues(s, s', Answer(it.tag, env.source));
    SourcePopped(s.reqs);
    PlacedFrame(s, s', moved);
  }

  lemma PlacedHandle(c: Config, s: State, moved: bool, env: Env)
    requires Inv(s) && Enabled(s, Handle(env)) && Placed(s, moved)
    ensures Placed(Next(c, s, Handle(env)), MovedAfter(c, s, moved, Handle(env)))
  {
    if IsSource(s.reqs[0]) {
      PlacedQuery(c, s, moved, env);
    } else {
      PlacedOp(c, s, moved, env);
    }
  }

  lemma PlacedQuiet(c: Config, s: State, moved: bool, step: Step)
    requires Inv(s) && Enabled(s, step) && Placed(s, moved) && (step.Tick? || step.FireCap?)
    ensures Placed(Next(c, s, step), MovedAfter(c, s, moved, step))
  {
    if step.FireCap? {
      CapTurn(c, s, step.cap);
    }
    QueuesFrame(s, Next(c, s, step));
    PlacedFrame(s, Next(c, s, step), moved);
  }

  lemma PlacedCrash(s: State, moved: bool)
    ensures Placed(Crashed(s), moved)
  {
    assert Live([], 0) == [];
  }

  /** Every step of the protocol keeps it. */
  lemma PlacedStep(c: Config, s: State, moved: bool, step: Step)
    requires Inv(s) && Enabled(s, step) && Placed(s, moved)
    ensures Placed(Next(c, s, step), MovedAfter(c, s, moved, step))
  {
    match step
    case Tick(now) => PlacedQuiet(c, s, moved, step);
    case Fire => PlacedFire(c, s, moved);
    case FirePoll => PlacedPoll(c, s, moved);
    case FireCap(cap) => PlacedQuiet(c, s, moved, step);
    case FinishDiscovery(rep) => PlacedDiscovery(c, s, moved, rep);
    case Deliver => PlacedDeliver(c, s, moved);
    case Handle(env) => PlacedHandle(c, s, moved, env);
    case Crash => PlacedCrash(s, MovedAfter(c, s, moved, step));
    case RestartServer => PlacedCrash(s.(reqs := []), MovedAfter(c, s, moved, step));
  }
}
