/** What the controller's decisions rest on: the counters and counts it was told, and how long the
    priming and the drain have run. Over the protocol of Protocol. */
module Decisions {
  import opened Wrappers
  import opened Addresses
  import opened Datapath
  import opened Controlling
  import opened Serving
  import opened Protocol

  /** The facts of the migration under way: the failure counter when it began, the failure counter
      last read and the flows the last collection left, in this priming and this drain, when the
      priming and the drain began, and whether the drain's own cap has fired. */
  datatype Known = Known(base: nat, read: Option<nat>, left: Option<nat>, primedAt: nat, drainAt: nat, capped: bool)

  /** What a served request adds. */
  function Learned(k: Known, req: Request, rep: Reply): Known {
    if !rep.ok then k
    else if req.BeginReq? && rep.CountsRep? then k.(base := rep.counts.fails, read := None)
    else if req.CountsReq? && rep.CountsRep? then k.(read := Some(rep.counts.fails))
    else if req.GcReq? && rep.GcRep? then k.(left := Some(rep.remaining))
    else if req.CutoverReq? then k.(left := None)
    else k
  }

  /** What a step of the controller adds: that a cap fires in the drain it was started for. */
  function Noted(k: Known, ctl: Ctl, step: Step): Known {
    if step.FireCap? && ctl.phase == Draining && step.cap.migration == ctl.data.migration then k.(capped := true) else k
  }

  predicate Primed(k: Known, now: nat) {
    now >= k.primedAt + PRIMING_DURATION
  }

  predicate Overlong(k: Known, now: nat) {
    now >= k.drainAt + MAX_DRAIN_DURATION
  }

  /** A cutover is asked for only when no recording failed since the migration began, as read after
      the whole priming window; a completion only when the last collection left nothing, or the
      drain's own cap has fired. */
  ghost predicate Front(s: State, k: Known) {
    var ops := Ops(s.reqs);
    ops != [] ==>
      && (ops[0].req == CutoverReq ==> k.read == Some(k.base) && Primed(k, s.now))
      && (ops[0].req == CompleteReq ==> k.left == Some(0) || k.capped)
  }

  ghost predicate Told(s: State, k: Known) {
    var f := FlightOf(s);
    && (s.ctl.phase == Priming ==> ToldPriming(s.ctl, f, s.m.ctrl.state, s.now, k))
    && (s.ctl.phase == Draining && f.Answered? && f.op == OpGc && f.rep.ok && f.rep.GcRep? ==>
          k.left == Some(f.rep.remaining))
  }

  ghost predicate ToldPriming(ctl: Ctl, f: Flight, state: nat, now: nat, k: Known) {
    && (TimerIs(ctl, Msg.Primed) ==> ctl.timer.value.at >= k.primedAt + PRIMING_DURATION)
    && (f.Waiting? && f.req == CountsReq ==> Primed(k, now))
    && (f.Answered? && f.op == OpBegin && f.rep.CountsRep? && f.rep.ok ==> f.rep.counts.fails == k.base)
    && (f.Answered? && f.op == OpCounts ==>
          Primed(k, now) && (f.rep.ok && f.rep.CountsRep? ==> k.read == Some(f.rep.counts.fails)))
    && (state == PRIMING && !(f.Answered? && f.op == OpBegin) && !(f.Waiting? && f.req.BeginReq?) ==>
          ctl.data.baseline.fails == k.base)
  }

  /** Only the cap of the present drain can mark it, and it marks it only after the full length. */
  ghost predicate Capped(ctl: Ctl, now: nat, k: Known) {
    && (forall cap :: cap in ctl.caps ==>
          && cap.migration <= ctl.data.migration
          && (ctl.phase == Priming ==> cap.migration < ctl.data.migration)
          && (ctl.phase == Draining && cap.migration == ctl.data.migration ==> cap.at >= k.drainAt + MAX_DRAIN_DURATION))
    && (ctl.phase == Draining && ctl.data.capReached ==> k.capped)
    && (k.capped ==> Overlong(k, now))
  }

  ghost predicate Grounded(s: State, k: Known) {
    && k.primedAt <= s.now && k.drainAt <= s.now
    && Front(s, k) && Told(s, k) && Capped(s.ctl, s.now, k)
  }

  // ---------------------------------------------------------------- controller steps

  lemma GroundedTick(c: Config, s: State, k: Known, now: nat)
    requires Inv(s) && Grounded(s, k) && s.now <= now
    ensures Grounded(s.(now := now), k)
  {
    assert FlightOf(s.(now := now)) == FlightOf(s);
  }

  lemma GroundedCrash(s: State, k: Known)
    requires Inv(s) && Grounded(s, k)
    ensures Grounded(Crashed(s), k) && Grounded(Crashed(s.(reqs := [])), k)
  {
    OpsAppend(s.reqs, RecoverItem(s.ctl.inc + 1));
    OpsAppend([], RecoverItem(s.ctl.inc + 1));
  }

  lemma GroundedFire(c: Config, s: State, k: Known)
    requires Inv(s) && Grounded(s, k) && Enabled(s, Fire)
    ensures Grounded(Next(c, s, Fire), k)
  {
    var s' := Next(c, s, Fire);
    match s.ctl.timer.value.msg
    case Refresh =>
      RefreshTurn(c, s);
    case Primed =>
      AskTurn(c, s, OpCounts, CountsReq);
      AskedWhileQuiet(s, s', Item(s.ctl.inc, Tag(OpCounts, s.ctl.data.gen), CountsReq));
      OpsAppend(s.reqs, Item(s.ctl.inc, Tag(OpCounts, s.ctl.data.gen), CountsReq));
    case DrainTick =>
      AskTurn(c, s, OpGc, GcReq);
      AskedWhileQuiet(s, s', Item(s.ctl.inc, Tag(OpGc, s.ctl.data.gen), GcReq));
      OpsAppend(s.reqs, Item(s.ctl.inc, Tag(OpGc, s.ctl.data.gen), GcReq));
    case _ =>
  }

  lemma GroundedPoll(c: Config, s: State, k: Known)
    requires Inv(s) && Grounded(s, k) && Enabled(s, FirePoll)
    ensures Grounded(Next(c, s, FirePoll), k)
  {
    PollTurn(c, s);
    var s' := Next(c, s, FirePoll);
    if s' != s {
      var it :| IsSource(it) && it.req.SourceReq? && Mine(s.ctl, it) && s' == s.(reqs := s.reqs + [it]);
      AskedSource(s, s', it);
      OpsAppend(s.reqs, it);
      assert Ops(s'.reqs) == Ops(s.reqs);
    }
  }

  lemma GroundedCap(c: Config, s: State, k: Known, cap: Cap)
    requires Inv(s) && Grounded(s, k) && Enabled(s, FireCap(cap))
    ensures Grounded(Next(c, s, FireCap(cap)), Noted(k, s.ctl, FireCap(cap)))
  {
    CapTurn(c, s, cap);
    QueuesFrame(s, Next(c, s, FireCap(cap)));
  }

  lemma GroundedDiscovery(c: Config, s: State, k: Known, rep: DiscoverRep)
    requires Inv(s) && Grounded(s, k) && Enabled(s, FinishDiscovery(rep))
    ensures Grounded(Next(c, s, FinishDiscovery(rep)), k)
  {
    DiscoveryTurn(c, s, rep);
    DiscoveryCaps(c, s, rep);
    var s' := Next(c, s, FinishDiscovery(rep));
    var d := s.ctl.data;
    if Moves(d, rep) {
      var it := Item(s.ctl.inc, Tag(OpBegin, d.gen), BeginReq(Endpoints(d.b4, rep.disc.aftr)));
      AskedWhileQuiet(s, s', it);
      OpsAppend(s.reqs, it);
    }
  }

  lemma DiscoveryCaps(c: Config, s: State, rep: DiscoverRep)
    requires WellFormed(s.m) && Enabled(s, FinishDiscovery(rep)) && s.ctl.phase == Discovering
    ensures var s' := Next(c, s, FinishDiscovery(rep));
            && s'.ctl.caps == s.ctl.caps
            && s'.ctl.data.migration == s.ctl.data.migration + (if Moves(s.ctl.data, rep) then 1 else 0)
  {
    var ev := AsyncResult(rep);
    var ctl := s.ctl.(discovering := false);
    if Moves(s.ctl.data, rep) {
      SendingTurn(c, ctl, ev, s.now, BeginReq(Endpoints(s.ctl.data.b4, rep.disc.aftr)), Tag(OpBegin, s.ctl.data.gen));
    } else {
      SteadyTurn(c, ctl, ev, s.now);
    }
  }

  /** An answer that is not live changes nothing. */
  lemma GroundedIdle(c: Config, s: State, k: Known)
    requires Inv(s) && Grounded(s, k) && s.resps != [] && FrontTurn(c, s) == Turn(s.ctl.phase, s.ctl.data, [])
    requires s.resps[0].tag.gen != s.ctl.data.gen || s.resps[0].tag.op == OpSource
    ensures Grounded(Next(c, s, Deliver), k)
  {
    IdleTurn(c, s);
    FlightTaken(s);
  }

  lemma GroundedSource(c: Config, s: State, k: Known)
    requires Inv(s) && Grounded(s, k) && s.resps != [] && s.resps[0].tag == Tag(OpSource, s.ctl.data.gen)
    requires FrontTurn(c, s) != Turn(s.ctl.phase, s.ctl.data, [])
    ensures Grounded(Next(c, s, Deliver), k)
  {
    assert s.ctl.phase != Recovering && s.ctl.phase != Switching by { assert s.resps[0] in s.resps; }
    var it := HardSwitchItem(c, s);
    HardSwitchCaps(c, s);
    OpsAppend(s.reqs, it);
  }

  lemma HardSwitchCaps(c: Config, s: State)
    requires WellFormed(s.m) && s.resps != [] && s.resps[0].tag == Tag(OpSource, s.ctl.data.gen)
    requires FrontTurn(c, s) != Turn(s.ctl.phase, s.ctl.data, []) && s.ctl.phase != Switching
    ensures var s' := Next(c, s, Deliver);
            s'.ctl.caps == s.ctl.caps && s'.ctl.data.migration == s.ctl.data.migration && s'.now == s.now
  {
    var t := FrontTurn(c, s);
    var req := SwitchReq(Endpoints(t.data.switchB4, t.data.switchTo.aftr));
    var tag := Tag(OpSwitch, t.data.gen);
    assert [CancelDiscover] + [Send(req, tag)] == [CancelDiscover, Send(req, tag)];
    assert t.effs == (if s.ctl.phase == Discovering then [CancelDiscover] else []) + [Send(req, tag)];
    AskingTurn(c, s, req, tag);
  }

  /** Out of the migration phases nothing is claimed but of the queue and the caps. */
  lemma GroundedSettled(s: State, s': State, k: Known)
    requires Grounded(s, k) && s.resps != []
    requires s' == Taken(s).(ctl := s'.ctl)
    requires s'.ctl.phase != Priming && s'.ctl.phase != Draining
    requires s'.ctl.caps == s.ctl.caps && s'.ctl.data.migration == s.ctl.data.migration
    ensures Grounded(s', k)
  {
  }

  lemma GroundedOutside(c: Config, s: State, k: Known)
    requires Inv(s) && Grounded(s, k) && s.resps != []
    requires s.resps[0].tag.gen == s.ctl.data.gen && s.resps[0].tag.op != OpSource
    requires s.ctl.phase != Priming && s.ctl.phase != Draining
    ensures Grounded(Next(c, s, Deliver), k)
  {
    OutsideFront(s);
    if s.ctl.phase == Recovering && !s.resps[0].rep.ok {
      GroundedStop(c, s, k);
    } else {
      OutsideTurn(c, s);
      GroundedSettled(s, Next(c, s, Deliver), k);
    }
  }

  lemma GroundedStop(c: Config, s: State, k: Known)
    requires Inv(s) && Grounded(s, k) && s.resps != []
    requires s.resps[0].tag.gen == s.ctl.data.gen && s.resps[0].tag.op != OpSource
    requires s.ctl.phase == Recovering && !s.resps[0].rep.ok
    ensures Grounded(Next(c, s, Deliver), k)
  {
    OutsideFront(s);
    RecoverStops(c, s);
    assert Crashed(Taken(s)) == Crashed(s);
    GroundedCrash(s, k);
  }

  lemma GroundedPrimingStays(s: State, s': State, k: Known, it: Item)
    requires Inv(s) && Grounded(s, k) && s.ctl.phase == Priming && s.resps != []
    requires s.resps[0].tag.gen == s.ctl.data.gen && s.resps[0].tag.op != OpSource && s.resps[0].tag.op != OpBegin
    requires s'.ctl == s.ctl.(data := s'.ctl.data)
    requires s'.ctl.data == s.ctl.data.(recorded := s'.ctl.data.recorded, abortWhy := s'.ctl.data.abortWhy)
    requires s' == Taken(s).(ctl := s'.ctl, reqs := s.reqs + [it])
    requires Matches(it.tag.op, it.req) && Mine(s.ctl, it) && s.m.ctrl.state == PRIMING
    requires it.req == AbortReq || (it.req == CutoverReq && k.read == Some(k.base) && Primed(k, s.now))
    ensures Grounded(s', k)
  {
    TakenLive(s);
    AskedWhileQuiet(Taken(s), s', it);
    OpsAppend(s.reqs, it);
  }

  lemma GroundedPrimingAsks(c: Config, s: State, k: Known)
    requires Inv(s) && Grounded(s, k) && s.resps != [] && s.resps[0].tag.gen == s.ctl.data.gen
    requires s.resps[0].tag.op == OpCounts || (s.resps[0].tag.op == OpCutover && !s.resps[0].rep.ok)
    requires s.ctl.phase == Priming
    ensures Grounded(Next(c, s, Deliver), k)
  {
    PrimingFront(s);
    PrimingTurn(c, s);
    GroundedPrimingStays(s, Next(c, s, Deliver), k, PrimingAsks(s));
  }

  lemma GroundedPriming(c: Config, s: State, k: Known)
    requires Inv(s) && Grounded(s, k) && s.resps != []
    requires s.resps[0].tag.gen == s.ctl.data.gen && s.resps[0].tag.op != OpSource
    requires s.ctl.phase == Priming
    ensures Grounded(Next(c, s, Deliver), k)
  {
    TakenLive(s);
    var s' := Next(c, s, Deliver);
    var op, rep := s.resps[0].tag.op, s.resps[0].rep;
    if op == OpCounts || (op == OpCutover && !rep.ok) {
      GroundedPrimingAsks(c, s, k);
    } else if op == OpAbort || (op == OpBegin && !rep.ok) {
      QuietTurn(c, s);
      GroundedSettled(s, s', k);
    } else if op == OpBegin {
      GroundedBegun(c, s, k);
    } else {
      GroundedCutOver(c, s, k);
    }
  }

  lemma GroundedBegun(c: Config, s: State, k: Known)
    requires Inv(s) && Grounded(s, k) && s.resps != [] && s.ctl.phase == Priming
    requires s.resps[0].tag == Tag(OpBegin, s.ctl.data.gen) && s.resps[0].rep.ok
    ensures Grounded(Next(c, s, Deliver), k)
  {
    TakenLive(s);
    WaitingTurn(c, s, PRIMING_DURATION, Msg.Primed);
    QueuesFrame(Taken(s), Next(c, s, Deliver));
  }

  lemma GroundedCutOver(c: Config, s: State, k: Known)
    requires Inv(s) && Grounded(s, k) && s.resps != [] && s.ctl.phase == Priming
    requires s.resps[0].tag == Tag(OpCutover, s.ctl.data.gen) && s.resps[0].rep.ok
    ensures Grounded(Next(c, s, Deliver), k)
  {
    TakenLive(s);
    DrainingTurn(c, s);
    QueuesFrame(Taken(s), Next(c, s, Deliver));
  }

  lemma GroundedDrainingStays(s: State, s': State, k: Known, it: Item)
    requires Inv(s) && Grounded(s, k) && s.ctl.phase == Draining && s.resps != []
    requires s.resps[0].tag.gen == s.ctl.data.gen && s.resps[0].tag.op != OpSource
    requires s'.ctl == s.ctl.(timer := s'.ctl.timer)
    requires s' == Taken(s).(ctl := s'.ctl)
             || (s' == Taken(s).(ctl := s'.ctl, reqs := s.reqs + [it])
                 && it.req == CompleteReq && Matches(it.tag.op, it.req) && Mine(s.ctl, it) && s.m.ctrl.state == DRAINING
                 && (k.left == Some(0) || k.capped))
    ensures Grounded(s', k)
  {
    TakenLive(s);
    if s'.reqs == s.reqs {
      QueuesFrame(Taken(s), s');
    } else {
      AskedWhileQuiet(Taken(s), s', it);
      OpsAppend(s.reqs, it);
    }
  }

  lemma GroundedCompletes(s: State, s': State, k: Known)
    requires Inv(s) && Grounded(s, k) && s.resps != []
    requires s.resps[0].tag == Tag(OpGc, s.ctl.data.gen) && s.ctl.phase == Draining
    requires var rep := s.resps[0].rep;
             rep.ok && rep.GcRep? && !(rep.remaining > 0 && !s.ctl.data.capReached)
    requires s' == Taken(s).(reqs := s.reqs + [Item(s.ctl.inc, Tag(OpComplete, s.ctl.data.gen), CompleteReq)])
    ensures Grounded(s', k)
  {
    TakenLive(s);
    GroundedDrainingStays(s, s', k, Item(s.ctl.inc, Tag(OpComplete, s.ctl.data.gen), CompleteReq));
  }

  lemma GroundedDraining(c: Config, s: State, k: Known)
    requires Inv(s) && Grounded(s, k) && s.resps != []
    requires s.resps[0].tag.gen == s.ctl.data.gen && s.resps[0].tag.op != OpSource
    requires s.ctl.phase == Draining
    ensures Grounded(Next(c, s, Deliver), k)
  {
    DrainingFront(s);
    if s.resps[0].tag.op == OpComplete && s.resps[0].rep.ok {
      CompletedTurn(c, s);
      GroundedSettled(s, Next(c, s, Deliver), k);
    } else if Done(s) {
      CompletesTurn(c, s);
      GroundedCompletes(s, Next(c, s, Deliver), k);
    } else {
      DrainsOnTurn(c, s);
      GroundedDrainingStays(s, Next(c, s, Deliver), k, RecoverItem(0));
    }
  }

  /** The controller decides on grounds alone: every step of it keeps them. */
  lemma GroundedControl(c: Config, s: State, k: Known, step: Step)
    requires Inv(s) && Grounded(s, k) && Enabled(s, step) && !step.Handle?
    ensures Grounded(Next(c, s, step), Noted(k, s.ctl, step))
  {
    match step
    case Tick(now) => GroundedTick(c, s, k, now);
    case Fire => GroundedFire(c, s, k);
    case FirePoll => GroundedPoll(c, s, k);
    case FireCap(cap) => GroundedCap(c, s, k, cap);
    case FinishDiscovery(rep) => GroundedDiscovery(c, s, k, rep);
    case Crash => GroundedCrash(s, k);
    case RestartServer => GroundedCrash(s, k);
    case Deliver =>
      var tag := s.resps[0].tag;
      if tag.gen != s.ctl.data.gen {
        GroundedIdle(c, s, k);
      } else if tag.op == OpSource {
        if FrontTurn(c, s) == Turn(s.ctl.phase, s.ctl.data, []) {
          GroundedIdle(c, s, k);
        } else {
          GroundedSource(c, s, k);
        }
      } else if s.ctl.phase == Priming {
        GroundedPriming(c, s, k);
      } else if s.ctl.phase == Draining {
        GroundedDraining(c, s, k);
      } else {
        GroundedOutside(c, s, k);
      }
  }

  /** The answer the controller waits for, freshly given. */
  lemma GroundedAnswer(s: State, s': State, k: Known, k': Known, op: Op, req: Request, rep: Reply)
    requires PhaseKnows(s) && Grounded(s, k) && Matches(op, req)
    requires s'.ctl == s.ctl && s'.now == s.now && k' == Learned(k, req, rep)
    requires FlightOf(s) == Waiting(req, true) && FlightOf(s') == Answered(op, rep)
    requires Ops(s'.reqs) == []
    ensures Grounded(s', k')
  {
  }

  /** An answer nobody waits for: the controller still waits for one that suits any state. */
  lemma GroundedStale(s: State, s': State, k: Known, k': Known)
    requires PhaseKnows(s) && Grounded(s, k)
    requires s'.ctl == s.ctl && s'.now == s.now
    requires k'.primedAt == k.primedAt && k'.drainAt == k.drainAt && k'.capped == k.capped
    requires FlightOf(s).Waiting? && !FlightOf(s).alone
    requires Ops(s'.reqs) != [] ==> EndsAll(Ops(s'.reqs)[0].req)
    ensures Grounded(s', k')
  {
  }

  /** Serving a request adds to the grounds just what its answer carries. */
  lemma GroundedHandle(c: Config, s: State, k: Known, env: Env)
    requires Inv(s) && Grounded(s, k) && Enabled(s, Handle(env))
    ensures Grounded(Next(c, s, Handle(env)), Learned(k, s.reqs[0].req, Serve(s.sw, s.m, s.reqs[0].req, env).rep))
  {
    var it := s.reqs[0];
    var r := Serve(s.sw, s.m, it.req, env);
    assert it in s.reqs && Matches(it.tag.op, it.req);
    if IsSource(it) {
      ServeResult(s.sw, s.m, it.req, env);
      GroundedServedSource(s, Next(c, s, Handle(env)), k, r.rep);
    } else {
      GroundedServed(s, Next(c, s, Handle(env)), k, r.rep);
    }
  }

  lemma GroundedServedSource(s: State, s': State, k: Known, rep: Reply)
    requires Inv(s) && Grounded(s, k) && s.reqs != [] && IsSource(s.reqs[0])
    requires s' == s.(reqs := s.reqs[1..], resps := s'.resps)
    requires s'.resps == s.resps + (if s.reqs[0].inc == s.ctl.inc then [Answer(s.reqs[0].tag, rep)] else [])
    ensures Grounded(s', k)
  {
    SourceQueues(s, s', Answer(s.reqs[0].tag, rep));
    assert Ops(s'.reqs) == Ops(s.reqs);
  }

  lemma GroundedServed(s: State, s': State, k: Known, rep: Reply)
    requires Inv(s) && Grounded(s, k) && s.reqs != [] && !IsSource(s.reqs[0])
    requires s'.ctl == s.ctl && s'.now == s.now && s'.reqs == s.reqs[1..]
    requires s'.resps == s.resps + (if s.reqs[0].inc == s.ctl.inc then [Answer(s.reqs[0].tag, rep)] else [])
    ensures Grounded(s', Learned(k, s.reqs[0].req, rep))
  {
    var it := s.reqs[0];
    var k' := Learned(k, it.req, rep);
    assert it in s.reqs && Matches(it.tag.op, it.req);
    HandleQueues(s, s', Answer(it.tag, rep));
    var ops := Ops(s.reqs);
    assert ops == [it] + Ops(s'.reqs);
    assert Ops(s'.reqs) != [] ==> Ops(s'.reqs)[0] == ops[1] && EndsAll(ops[1].req);
    if Mine(s.ctl, it) {
      GroundedAnswer(s, s', k, k', it.tag.op, it.req, rep);
    } else {
      GroundedStale(s, s', k, k');
    }
  }

  // ---------------------------------------------------------------- while an operation is under way

  ghost predicate AllEnd(ops: seq<Item>) {
    forall i :: 0 <= i < |ops| ==> EndsAll(ops[i].req)
  }

  /** The controller waits for the answer to a request being served, or for one behind it that suits
      any state. */
  ghost predicate Held(s: State) {
    AllEnd(Ops(s.reqs)) && (Ops(s.reqs) == [] ==> FlightOf(s).Answered?)
  }

  ghost predicate StillHeld(s: State, s': State) {
    FlightOf(s') == FlightOf(s) && s'.ctl.inc == s.ctl.inc && s'.ctl.data.gen == s.ctl.data.gen
  }

  lemma HeldPhase(s: State)
    requires Inv(s) && Held(s)
    ensures s.ctl.timer.None? && !s.ctl.discovering
    ensures Ops(s.reqs) != [] ==> NoQuery(s)
  {
  }

  /** Until that answer is delivered, the controller sends nothing but source queries and requests
      that suit any state. */
  lemma HeldControl(c: Config, s: State, step: Step)
    requires Inv(s) && Held(s) && Enabled(s, step) && !step.Handle?
    requires step.Deliver? ==> s.resps[0].tag.gen != s.ctl.data.gen || s.resps[0].tag.op == OpSource
    ensures var s' := Next(c, s, step);
            AllEnd(Ops(s'.reqs)) && (Ops(s'.reqs) == [] ==> StillHeld(s, s'))
  {
    if step.FirePoll? {
      HeldPoll(c, s);
    } else if step.Deliver? {
      HeldDeliver(c, s);
    } else if step.Crash? || step.RestartServer? {
      HeldCrash(c, s, step);
    } else if step.Tick? || step.FireCap? {
      HeldQuiet(c, s, step);
    } else {
      HeldPhase(s);
    }
  }

  lemma HeldCrash(c: Config, s: State, step: Step)
    requires WellFormed(s.m) && AllEnd(Ops(s.reqs)) && (step.Crash? || step.RestartServer?)
    ensures var s' := Next(c, s, step); AllEnd(Ops(s'.reqs)) && Ops(s'.reqs) != []
  {
    OpsAppend(if step.Crash? then s.reqs else [], RecoverItem(s.ctl.inc + 1));
  }

  lemma HeldQuiet(c: Config, s: State, step: Step)
    requires Inv(s) && Held(s) && Enabled(s, step) && (step.Tick? || step.FireCap?)
    ensures var s' := Next(c, s, step); AllEnd(Ops(s'.reqs)) && StillHeld(s, s')
  {
    if step.FireCap? {
      CapTurn(c, s, step.cap);
    }
    QueuesFrame(s, Next(c, s, step));
  }

  lemma HeldPoll(c: Config, s: State)
    requires Inv(s) && Held(s) && Enabled(s, FirePoll)
    ensures var s' := Next(c, s, FirePoll);
            AllEnd(Ops(s'.reqs)) && (Ops(s'.reqs) == [] ==> StillHeld(s, s'))
  {
    PollTurn(c, s);
    var s' := Next(c, s, FirePoll);
    if s' != s {
      var it :| IsSource(it) && it.req.SourceReq? && Mine(s.ctl, it) && s' == s.(reqs := s.reqs + [it]);
      AskedSource(s, s', it);
      OpsAppend(s.reqs, it);
      assert Ops(s'.reqs) == Ops(s.reqs);
    }
  }

  lemma HeldDeliver(c: Config, s: State)
    requires Inv(s) && Held(s) && Enabled(s, Deliver)
    requires s.resps[0].tag.gen != s.ctl.data.gen || s.resps[0].tag.op == OpSource
    ensures var s' := Next(c, s, Deliver);
            AllEnd(Ops(s'.reqs)) && (Ops(s'.reqs) == [] ==> StillHeld(s, s'))
  {
    if FrontTurn(c, s) == Turn(s.ctl.phase, s.ctl.data, []) {
      IdleTurn(c, s);
      FlightTaken(s);
    } else {
      HeldSwitch(c, s);
    }
  }

  lemma FlightTaken(s: State)
    requires s.resps != [] && (s.resps[0].tag.gen != s.ctl.data.gen || s.resps[0].tag.op == OpSource)
    ensures FlightOf(Taken(s)) == FlightOf(s)
  {
    assert Live(Taken(s).resps, s.ctl.data.gen) == Live(s.resps, s.ctl.data.gen);
  }

  lemma HeldSwitch(c: Config, s: State)
    requires Inv(s) && Held(s) && s.resps != [] && s.resps[0].tag == Tag(OpSource, s.ctl.data.gen)
    requires FrontTurn(c, s) != Turn(s.ctl.phase, s.ctl.data, [])
    ensures var ops := Ops(Next(c, s, Deliver).reqs);
            AllEnd(ops) && ops != []
  {
    HeldPhase(s);
    assert s.resps[0] in s.resps;
    var it := HardSwitchItem(c, s);
    OpsAppend(s.reqs, it);
  }

  /** The priming or the drain begins to run while its request is being served. */
  lemma HeldBegins(s: State, k: Known, k': Known)
    requires Inv(s) && Grounded(s, k) && Held(s)
    requires (k' == k.(primedAt := s.now) && (Ops(s.reqs) == [] ==> FlightOf(s).op == OpBegin))
             || (k' == k.(drainAt := s.now, capped := false) && (Ops(s.reqs) == [] ==> FlightOf(s).op == OpCutover))
    ensures Grounded(s, k')
  {
    HeldPhase(s);
  }
}
