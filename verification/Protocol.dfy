/** The migration protocol with each softwire request served in one step: controller, FIFO request
    and response queues, softwire, datapath maps. The controller may crash at any point; requests
    of a dead controller stay queued, answers to it are lost. */
module Protocol {
  import opened Wrappers
  import opened Addresses
  import opened Datapath
  import opened Controlling
  import opened Serving

  /** A request on its way, with the controller incarnation that sent it. */
  datatype Item = Item(inc: nat, tag: Tag, req: Request)

  datatype Answer = Answer(tag: Tag, rep: Reply)

  datatype Due = Due(at: int, msg: Msg)

  datatype Cap = Cap(at: int, migration: nat)

  /** A running controller with its timers. `timer` is the state timeout, cancelled by a change of
      phase. A drain cap once started may fire whatever happens later: nothing here relies on it
      being cancelled or replaced. */
  datatype Ctl = Ctl(
    inc: nat,
    phase: Phase,
    data: Data,
    timer: Option<Due>,
    poll: bool,
    caps: set<Cap>,
    discovering: bool)

  /** `lost` is for the record only: the controller has left a migration by a hard switch, or a rollback
      of its own was refused, and nothing since has settled where traffic goes. */
  datatype State = State(ctl: Ctl, reqs: seq<Item>, resps: seq<Answer>, sw: Sw, m: Maps, now: nat, lost: bool)

  // ---------------------------------------------------------------- running the controller

  datatype Acted = Acted(ctl: Ctl, sent: seq<Item>, stopped: bool)

  function Act(a: Acted, e: Effect, now: nat): Acted {
    match e
    case Send(req, tag) => a.(sent := a.sent + [Item(a.ctl.inc, tag, req)])
    case Discover(_) => a.(ctl := a.ctl.(discovering := true))
    case CancelDiscover => a.(ctl := a.ctl.(discovering := false))
    case StartStateTimeout(after, msg) => a.(ctl := a.ctl.(timer := Some(Due(now + after, msg))))
    case StartTimeout(_, after, msg) =>
      if msg.DrainCap? then a.(ctl := a.ctl.(caps := a.ctl.caps + {Cap(now + after, msg.migration)}))
      else a.(ctl := a.ctl.(poll := true))
    case CancelTimeout(_) => a
    case Postpone => a.(ctl := a.ctl.(poll := true))
    case Stop => a.(stopped := true)
  }

  function ActAll(a: Acted, es: seq<Effect>, now: nat): Acted
    decreases |es|
  {
    if es == [] then a else ActAll(Act(a, es[0], now), es[1..], now)
  }

  /** One event: the transition and its effects, then the entry into a new phase and its effects. */
  function Dispatch(c: Config, ctl: Ctl, ev: Event, now: nat): Acted {
    var t := HandleEvent(c, ctl.phase, ctl.data, ev);
    var moved := t.phase != ctl.phase;
    var ctl1 := ctl.(phase := t.phase, data := t.data, timer := if moved then None else ctl.timer);
    var a := ActAll(Acted(ctl1, [], false), t.effs, now);
    if !moved then a
    else
      var e := HandleEvent(c, t.phase, t.data, Enter);
      ActAll(a.(ctl := a.ctl.(data := e.data)), e.effs, now)
  }

  function Fresh(inc: nat): Ctl {
    Ctl(inc, Recovering, ZERO_DATA, None, false, {}, false)
  }

  function RecoverItem(inc: nat): Item {
    Item(inc, Tag(OpRecover, 0), RecoverReq)
  }

  // ---------------------------------------------------------------- steps

  datatype Step =
    | Tick(now: nat)
    | Fire
    | FirePoll
    | FireCap(cap: Cap)
    | FinishDiscovery(rep: DiscoverRep)
    | Deliver
    | Handle(env: Env)
    | Crash
    | RestartServer

  predicate Enabled(s: State, step: Step) {
    match step
    case Tick(now) => s.now <= now
    case Fire => s.ctl.timer.Some? && s.ctl.timer.value.at <= s.now
    case FirePoll => s.ctl.poll
    case FireCap(cap) => cap in s.ctl.caps && cap.at <= s.now
    case FinishDiscovery(_) => s.ctl.discovering
    case Deliver => s.resps != []
    case Handle(_) => s.reqs != []
    case Crash => true
    case RestartServer => true
  }

  /** A hard switch out of a migration. */
  predicate Leaves(was: Phase, now: Phase) {
    now == Switching && (was == Priming || was == Draining)
  }

  /** The record after the softwire answered a request of the running controller. */
  predicate StillLost(lost: bool, req: Request, ok: bool) {
    if req.AbortReq? then lost || !ok
    else if req.SwitchReq? || req.RecoverReq? || req.CutoverReq? then lost && !ok
    else lost
  }

  function Run(c: Config, s: State, ctl: Ctl, ev: Event): State {
    var a := Dispatch(c, ctl, ev, s.now);
    var s' := s.(ctl := a.ctl, reqs := s.reqs + a.sent, lost := s.lost || Leaves(s.ctl.phase, a.ctl.phase));
    if a.stopped then Crashed(s') else s'
  }

  function Crashed(s: State): State {
    s.(ctl := Fresh(s.ctl.inc + 1), reqs := s.reqs + [RecoverItem(s.ctl.inc + 1)], resps := [])
  }

  function Next(c: Config, s: State, step: Step): State
    requires WellFormed(s.m)
    requires Enabled(s, step)
  {
    match step
    case Tick(now) => s.(now := now)
    case Fire => Run(c, s, s.ctl.(timer := None), StateTimeout(s.ctl.timer.value.msg))
    case FirePoll => Run(c, s, s.ctl.(poll := false), Timeout(B4Poll))
    case FireCap(cap) => Run(c, s, s.ctl.(caps := s.ctl.caps - {cap}), Timeout(DrainCap(cap.migration)))
    case FinishDiscovery(rep) => Run(c, s, s.ctl.(discovering := false), AsyncResult(rep))
    case Deliver => Run(c, s.(resps := s.resps[1..]), s.ctl, Response(s.resps[0].tag, s.resps[0].rep))
    case Handle(env) =>
      var it := s.reqs[0];
      var r := Serve(s.sw, s.m, it.req, env);
      s.(reqs := s.reqs[1..],
         resps := s.resps + (if it.inc == s.ctl.inc then [Answer(it.tag, r.rep)] else []),
         sw := r.sw, m := ApplyAll(s.m, r.writes),
         lost := if Mine(s.ctl, it) then StillLost(s.lost, it.req, r.rep.ok) else s.lost)
    case Crash => Crashed(s)
    case RestartServer => Crashed(s.(reqs := []))
  }

  /** Startup: SetB4Config has run, and the first controller asks where traffic goes. */
  ghost predicate Init(s: State, ends: Endpoints) {
    && ValidEndpoints(ends)
    && s.ctl == Fresh(0) && s.reqs == [RecoverItem(0)] && s.resps == []
    && s.sw == Sw(ends, Endpoints(NoAddr, NoAddr), false)
    && !s.lost && WellFormed(s.m) && s.m.ctrl == Ctrl(0, 0, STEADY, 0) && s.m.hops == [NextHop(true, ends), CLEARED]
  }

  // ---------------------------------------------------------------- what is in flight

  predicate IsSource(it: Item) { it.tag.op == OpSource }

  /** The requests in the queue other than source queries. */
  function Ops(q: seq<Item>): seq<Item> {
    if q == [] then [] else (if IsSource(q[0]) then [] else [q[0]]) + Ops(q[1..])
  }

  /** The answers the controller will act on, other than those to source queries. */
  function Live(rs: seq<Answer>, gen: nat): seq<Answer> {
    if rs == [] then []
    else (if rs[0].tag.gen == gen && rs[0].tag.op != OpSource then [rs[0]] else []) + Live(rs[1..], gen)
  }

  lemma {:induction false} OpsAppend(q: seq<Item>, it: Item)
    ensures Ops(q + [it]) == Ops(q) + (if IsSource(it) then [] else [it])
  {
    if q == [] {
      assert [it][1..] == [];
    } else {
      var first := if IsSource(q[0]) then [] else [q[0]];
      var last := if IsSource(it) then [] else [it];
      assert (q + [it])[0] == q[0] && (q + [it])[1..] == q[1..] + [it];
      OpsAppend(q[1..], it);
      assert Ops(q + [it]) == first + (Ops(q[1..]) + last);
      assert first + (Ops(q[1..]) + last) == (first + Ops(q[1..])) + last;
    }
  }

  lemma {:induction false} LiveAppend(rs: seq<Answer>, a: Answer, gen: nat)
    ensures Live(rs + [a], gen) == Live(rs, gen) + (if a.tag.gen == gen && a.tag.op != OpSource then [a] else [])
  {
    if rs == [] {
      assert [a][1..] == [];
    } else {
      var first := if rs[0].tag.gen == gen && rs[0].tag.op != OpSource then [rs[0]] else [];
      var last := if a.tag.gen == gen && a.tag.op != OpSource then [a] else [];
      assert (rs + [a])[0] == rs[0] && (rs + [a])[1..] == rs[1..] + [a];
      LiveAppend(rs[1..], a, gen);
      assert Live(rs + [a], gen) == first + (Live(rs[1..], gen) + last);
      assert first + (Live(rs[1..], gen) + last) == (first + Live(rs[1..], gen)) + last;
    }
  }

  /** Raising the generation leaves nothing live. */
  lemma {:induction false} NothingLive(rs: seq<Answer>, gen: nat)
    requires forall a :: a in rs ==> a.tag.gen < gen
    ensures Live(rs, gen) == []
  {
    if rs != [] {
      assert rs[0] in rs;
      NothingLive(rs[1..], gen);
    }
  }

  lemma {:induction false} OpsFrom(q: seq<Item>)
    ensures forall it :: it in Ops(q) <==> it in q && !IsSource(it)
  {
    if q != [] {
      OpsFrom(q[1..]);
    }
  }

  // ---------------------------------------------------------------- the invariant

  predicate Matches(op: Op, req: Request) {
    match req
    case RecoverReq => op == OpRecover
    case SourceReq(_) => op == OpSource
    case SwitchReq(_) => op == OpSwitch
    case BeginReq(_) => op == OpBegin
    case CountsReq => op == OpCounts
    case AbortReq => op == OpAbort
    case CutoverReq => op == OpCutover
    case GcReq => op == OpGc
    case CompleteReq => op == OpComplete
  }

  /** The datapath state each request may find: the order the operations must be driven in. A lost
      controller may begin a migration at any time. */
  predicate InOrder(req: Request, state: nat, lost: bool) {
    match req
    case BeginReq(_) => state == STEADY || lost
    case CountsReq => state == PRIMING
    case AbortReq => state == PRIMING
    case CutoverReq => state == PRIMING
    case GcReq => state == DRAINING
    case CompleteReq => state == DRAINING
    case _ => true
  }

  predicate Mine(ctl: Ctl, it: Item) {
    it.inc == ctl.inc && it.tag.gen == ctl.data.gen
  }

  predicate EndsAll(req: Request) {
    req.SwitchReq? || req.RecoverReq?
  }

  /** The softwire and the maps agree with each other. */
  ghost predicate Shape(sw: Sw, m: Maps) {
    && Sound(m)
    && (m.ctrl.state != DRAINING ==> m.ctrl.oldSlot == m.ctrl.activeSlot)
    && (sw.migrating <==> m.ctrl.state != STEADY)
    && m.hops[m.ctrl.activeSlot] == NextHop(true, sw.active) && ValidEndpoints(sw.active)
    && (m.ctrl.state == PRIMING ==>
          m.hops[Other(m.ctrl.activeSlot)] == NextHop(true, sw.target) && ValidEndpoints(sw.target))
  }

  /** Every request queued is one the present controller or an earlier one sent. */
  ghost predicate Tagged(q: seq<Item>, ctl: Ctl) {
    forall it :: it in q ==>
      && Matches(it.tag.op, it.req)
      && it.inc <= ctl.inc && (it.inc == ctl.inc ==> it.tag.gen <= ctl.data.gen)
  }

  /** Requests of earlier lives or generations come first, then at most one of the present; the
      front one finds the state it must find, and those behind it suit any state. */
  ghost predicate Lined(ops: seq<Item>, ctl: Ctl, state: nat, lost: bool) {
    && (forall i :: 1 <= i < |ops| ==> EndsAll(ops[i].req))
    && (forall i :: 0 <= i < |ops| - 1 ==> !Mine(ctl, ops[i]))
    && (ops != [] ==> InOrder(ops[0].req, state, lost) && Mine(ctl, ops[|ops| - 1]))
  }

  ghost predicate Queues(s: State) {
    var live := Live(s.resps, s.ctl.data.gen);
    && Tagged(s.reqs, s.ctl)
    && (forall a :: a in s.resps ==> a.tag.gen <= s.ctl.data.gen)
    && Lined(Ops(s.reqs), s.ctl, s.m.ctrl.state, s.lost)
    && (Ops(s.reqs) != [] ==> live == [])
    && |live| <= 1
  }

  /** No source query of the present generation is about while the B4 is unsettled. */
  ghost predicate NoQuery(s: State) {
    && (forall it :: it in s.reqs && Mine(s.ctl, it) ==> !IsSource(it))
    && (forall a :: a in s.resps && a.tag.gen == s.ctl.data.gen ==> a.tag.op != OpSource)
  }

  /** What the controller waits for: a request in the queue, an answer, or nothing. */
  datatype Flight = Quiet | Waiting(req: Request, alone: bool) | Answered(op: Op, rep: Reply)

  ghost function FlightOf(s: State): Flight {
    var ops := Ops(s.reqs);
    var live := Live(s.resps, s.ctl.data.gen);
    if live != [] then Answered(live[0].tag.op, live[0].rep)
    else if ops != [] then Waiting(ops[|ops| - 1].req, |ops| == 1)
    else Quiet
  }

  predicate TimerIs(ctl: Ctl, msg: Msg) {
    ctl.timer.Some? && ctl.timer.value.msg == msg
  }

  /** What each phase knows of the softwire. */
  ghost predicate PhaseKnows(s: State) {
    var d := s.ctl.data;
    var f := FlightOf(s);
    var state := s.m.ctrl.state;
    var onCurrent := s.sw.active == Endpoints(d.b4, d.current.aftr);
    var onNext := s.sw.active == Endpoints(d.b4, d.next.aftr);
    match s.ctl.phase
    case Recovering =>
      && s.ctl.timer.None? && !s.ctl.poll && !s.ctl.discovering && NoQuery(s)
      && ((f.Waiting? && f.req == RecoverReq)
          || (f.Answered? && f.op == OpRecover && f.rep.Recovered?
              && (f.rep.ok ==> state == STEADY && f.rep.ends == s.sw.active)))
    case Steady =>
      && f == Quiet && !s.ctl.discovering && (!s.lost ==> state == STEADY && onCurrent)
      && (s.ctl.timer.Some? ==> s.ctl.timer.value.msg == Refresh)
    case Discovering =>
      f == Quiet && s.ctl.timer.None? && (!s.lost ==> state == STEADY && onCurrent)
    case Priming =>
      && !s.ctl.discovering && d.next.aftr != d.current.aftr
      && PrimingKnows(s.ctl, f, state, s.lost)
      && (!s.lost && state != DRAINING ==> onCurrent)
      && (Begun(f) && state == DRAINING ==> onNext)
      && (Begun(f) && state == PRIMING ==> s.sw.target == Endpoints(d.b4, d.next.aftr))
    case Draining =>
      && !s.ctl.discovering && d.next.aftr != d.current.aftr && onNext
      && DrainingKnows(s.ctl, f, state)
    case Switching =>
      var to := Endpoints(d.switchB4, d.switchTo.aftr);
      && s.ctl.timer.None? && !s.ctl.discovering && NoQuery(s)
      && ((f.Waiting? && f.req == SwitchReq(to) && (!s.lost ==> f.alone && state == STEADY && onCurrent))
          || (f == Answered(OpSwitch, DoneRep(true)) && state == STEADY && s.sw.active == to)
          || (f == Answered(OpSwitch, DoneRep(false)) && (!s.lost ==> state == STEADY && onCurrent)))
  }

  /** The migration of this phase has begun, and has not been rolled back. */
  predicate Begun(f: Flight) {
    match f
    case Quiet => true
    case Waiting(req, _) => !req.BeginReq?
    case Answered(op, rep) => op != OpAbort && (op == OpBegin ==> rep.ok)
  }

  ghost predicate PrimingKnows(ctl: Ctl, f: Flight, state: nat, lost: bool) {
    match f
    case Quiet => TimerIs(ctl, Primed) && state == PRIMING
    case Waiting(req, alone) =>
      && ctl.timer.None? && alone
      && ((req == BeginReq(Endpoints(ctl.data.b4, ctl.data.next.aftr)) && (!lost ==> state == STEADY))
          || ((req == CountsReq || req == AbortReq || req == CutoverReq) && state == PRIMING))
    case Answered(op, rep) =>
      && ctl.timer.None?
      && ((op == OpBegin && rep.CountsRep? && (if rep.ok then state == PRIMING else !lost ==> state == STEADY))
          || (op == OpCounts && rep.CountsRep? && state == PRIMING)
          || (op == OpCutover && rep.DoneRep? && state == (if rep.ok then DRAINING else PRIMING))
          || (op == OpAbort && rep.DoneRep? && (!lost ==> state == STEADY)))
  }

  ghost predicate DrainingKnows(ctl: Ctl, f: Flight, state: nat) {
    match f
    case Quiet => TimerIs(ctl, DrainTick) && state == DRAINING
    case Waiting(req, alone) =>
      ctl.timer.None? && alone && (req == GcReq || req == CompleteReq) && state == DRAINING
    case Answered(op, rep) =>
      && ctl.timer.None?
      && ((op == OpGc && rep.GcRep? && state == DRAINING)
          || (op == OpComplete && rep.DoneRep? && state == (if rep.ok then STEADY else DRAINING)))
  }

  ghost predicate Inv(s: State) {
    Shape(s.sw, s.m) && Queues(s) && PhaseKnows(s)
  }

  // ---------------------------------------------------------------- preservation

  lemma InitInv(s: State, ends: Endpoints)
    requires Init(s, ends)
    ensures Inv(s)
  {
    assert s.reqs[1..] == [];
    assert Ops(s.reqs) == [RecoverItem(0)];
  }

  /** Serving one request, with the softwire's half of the invariant. */
  lemma ServeKeepsShape(sw: Sw, m: Maps, req: Request, env: Env)
    requires Shape(sw, m)
    ensures var r := Serve(sw, m, req, env);
            Shape(r.sw, ApplyAll(m, r.writes)) && Careful(m, r.writes)
  {
    var r := Serve(sw, m, req, env);
    match req
    case RecoverReq => SwitchOutcome(m, sw.active);
    case SwitchReq(to) => SwitchOutcome(m, to);
    case BeginReq(to) => BeginOutcome(m, to);
    case AbortReq => AbortOutcome(m);
    case CutoverReq => CutoverOutcome(m);
    case CompleteReq => CompleteOutcome(m);
    case _ =>
  }

  lemma ActOne(a: Acted, e: Effect, now: nat)
    ensures ActAll(a, [e], now) == Act(a, e, now)
  {
    assert [e][1..] == [];
  }

  lemma ActTwo(a: Acted, e: Effect, f: Effect, now: nat)
    ensures ActAll(a, [e, f], now) == Act(Act(a, e, now), f, now)
  {
    assert [e, f][1..] == [f];
    ActOne(Act(a, e, now), f, now);
  }

  /** What serving a request comes to, from the state it must find. */
  lemma ServeResult(sw: Sw, m: Maps, req: Request, env: Env)
    requires Shape(sw, m) && InOrder(req, m.ctrl.state, true)
    ensures var r := Serve(sw, m, req, env);
            var state := ApplyAll(m, r.writes).ctrl.state;
            match req
            case RecoverReq => r.rep.Recovered? && (r.rep.ok ==> state == STEADY && r.rep.ends == r.sw.active == sw.active)
            case SwitchReq(to) => if env.readable && ValidEndpoints(to)
                                  then r.rep == DoneRep(true) && state == STEADY && r.sw.active == to
                                  else r.rep == DoneRep(false) && r.writes == [] && r.sw == sw
            case BeginReq(to) => r.rep.CountsRep? && r.sw.active == sw.active
                                 && (if r.rep.ok then m.ctrl.state == STEADY && state == PRIMING && r.sw.target == to
                                     else r.writes == [] && r.sw == sw)
            case AbortReq => r.sw.active == sw.active && r.rep == DoneRep(env.readable)
                             && (if env.readable then state == STEADY else r.writes == [])
            case CutoverReq => r.rep.DoneRep? && r.sw.target == sw.target
                               && (if r.rep.ok then state == DRAINING && r.sw.active == sw.target
                                   else state == PRIMING && r.sw == sw)
            case CompleteReq => r.rep.DoneRep? && r.sw.active == sw.active
                                && state == (if r.rep.ok then STEADY else DRAINING)
            case CountsReq => r.rep.CountsRep? && r.sw == sw && r.writes == []
            case GcReq => r.rep.GcRep? && r.sw == sw && r.writes == []
            case SourceReq(_) => r.sw == sw && r.writes == []
  {
    match req
    case RecoverReq => SwitchOutcome(m, sw.active);
    case SwitchReq(to) => SwitchOutcome(m, to);
    case BeginReq(to) => BeginOutcome(m, to);
    case AbortReq => AbortOutcome(m);
    case CutoverReq => CutoverOutcome(m);
    case CompleteReq => CompleteOutcome(m);
    case _ =>
  }

  /** A phase's knowledge depends only on the softwire, what is in flight and the controller but
      for its drain caps. */
  lemma PhaseFrame(s: State, s': State)
    requires PhaseKnows(s)
    requires s'.sw == s.sw && s'.m == s.m && s'.lost == s.lost && FlightOf(s') == FlightOf(s)
    requires s'.ctl == s.ctl.(caps := s'.ctl.caps, data := s.ctl.data.(capReached := s'.ctl.data.capReached))
    requires NoQuery(s) ==> NoQuery(s')
    ensures PhaseKnows(s')
  {
  }

  lemma HandleSource(c: Config, s: State, env: Env)
    requires Inv(s) && Enabled(s, Handle(env)) && IsSource(s.reqs[0])
    ensures Inv(Next(c, s, Handle(env)))
  {
    var it := s.reqs[0];
    var s' := Next(c, s, Handle(env));
    assert it in s.reqs && it.req.SourceReq?;
    ServeResult(s.sw, s.m, it.req, env);
    assert s'.m == s.m && s'.sw == s.sw;
    SourceQueues(s, s', Answer(it.tag, env.source));
    PhaseFrame(s, s');
  }

  lemma SourceQueues(s: State, s': State, a: Answer)
    requires Queues(s) && s.reqs != [] && IsSource(s.reqs[0]) && a.tag == s.reqs[0].tag
    requires s' == s.(reqs := s.reqs[1..], resps := s'.resps)
    requires s'.resps == s.resps + (if s.reqs[0].inc == s.ctl.inc then [a] else [])
    ensures Queues(s') && FlightOf(s') == FlightOf(s) && (NoQuery(s) ==> NoQuery(s'))
  {
    assert s.reqs[0] in s.reqs;
    SourcePopped(s.reqs);
    SourceAnswered(s.resps, s'.resps, a, s.reqs[0].inc == s.ctl.inc, s.ctl.data.gen);
  }

  lemma SourcePopped(q: seq<Item>)
    requires q != [] && IsSource(q[0])
    ensures Ops(q[1..]) == Ops(q) && forall it :: it in q[1..] ==> it in q
  {
  }

  lemma SourceAnswered(rs: seq<Answer>, rs': seq<Answer>, a: Answer, kept: bool, gen: nat)
    requires a.tag.op == OpSource && rs' == rs + (if kept then [a] else [])
    ensures Live(rs', gen) == Live(rs, gen) && forall b :: b in rs' <==> b in rs || (kept && b == a)
  {
    LiveAppend(rs, a, gen);
    assert rs + [] == rs;
  }

  /** The queues after a request other than a source query is served, whatever it did. */
  lemma HandleQueues(s: State, s': State, a: Answer)
    requires Queues(s) && s.reqs != [] && !IsSource(s.reqs[0]) && a.tag == s.reqs[0].tag
    requires s'.ctl == s.ctl && s'.reqs == s.reqs[1..]
    requires s'.resps == s.resps + (if s.reqs[0].inc == s.ctl.inc then [a] else [])
    ensures Queues(s') && (NoQuery(s) ==> NoQuery(s'))
    ensures InOrder(s.reqs[0].req, s.m.ctrl.state, s.lost)
    ensures Mine(s.ctl, s.reqs[0]) ==>
              FlightOf(s) == Waiting(s.reqs[0].req, true) && FlightOf(s') == Answered(a.tag.op, a.rep)
    ensures !Mine(s.ctl, s.reqs[0]) ==>
              && FlightOf(s).Waiting? && !FlightOf(s).alone
              && FlightOf(s').Waiting? && FlightOf(s').req == FlightOf(s).req
  {
    assert s.reqs[0] in s.reqs;
    assert Ops(s.reqs) == [s.reqs[0]] + Ops(s'.reqs);
    Popped(Ops(s.reqs), s.ctl, s.m.ctrl.state, s.lost, s'.m.ctrl.state, s'.lost);
    assert Ops(s.reqs)[1..] == Ops(s'.reqs);
    AnswerQueued(s.resps, s'.resps, a, s.reqs[0].inc == s.ctl.inc, s.ctl.data.gen);
  }

  lemma Popped(ops: seq<Item>, ctl: Ctl, state: nat, lost: bool, state': nat, lost': bool)
    requires ops != [] && Lined(ops, ctl, state, lost)
    ensures Lined(ops[1..], ctl, state', lost')
    ensures Mine(ctl, ops[0]) <==> |ops| == 1
    ensures |ops| > 1 ==> ops[1..][|ops| - 2] == ops[|ops| - 1]
  {
  }

  lemma AnswerQueued(rs: seq<Answer>, rs': seq<Answer>, a: Answer, kept: bool, gen: nat)
    requires Live(rs, gen) == [] && rs' == rs + (if kept then [a] else [])
    ensures Live(rs', gen) == if kept && a.tag.gen == gen && a.tag.op != OpSource then [a] else []
  {
    LiveAppend(rs, a, gen);
    assert rs + [] == rs;
  }

  /** A request of an earlier life or generation: the controller waits for one that suits any state. */
  lemma HandleStale(s: State, s': State)
    requires PhaseKnows(s) && FlightOf(s).Waiting? && !FlightOf(s).alone
    requires s'.ctl == s.ctl && s'.lost == s.lost && (NoQuery(s) ==> NoQuery(s'))
    requires FlightOf(s').Waiting? && FlightOf(s').req == FlightOf(s).req
    ensures PhaseKnows(s')
  {
  }

  /** The softwire has served the one request the controller waits for. */
  ghost predicate Answers(s: State, s': State, req: Request, op: Op, env: Env)
    requires WellFormed(s.m)
  {
    var r := Serve(s.sw, s.m, req, env);
    && PhaseKnows(s) && Shape(s.sw, s.m) && Matches(op, req) && (NoQuery(s) ==> NoQuery(s'))
    && FlightOf(s) == Waiting(req, true) && FlightOf(s') == Answered(op, r.rep)
    && s'.ctl == s.ctl && s'.sw == r.sw && s'.m == ApplyAll(s.m, r.writes) && s'.lost == StillLost(s.lost, req, r.rep.ok)
  }

  /** ... one that settles where traffic goes, */
  lemma AnswersSettling(s: State, s': State, req: Request, op: Op, env: Env)
    requires WellFormed(s.m) && Answers(s, s', req, op, env) && EndsAll(req)
    ensures PhaseKnows(s')
  {
    ServeResult(s.sw, s.m, req, env);
  }

  /** ... one of a priming, */
  lemma AnswersPriming(s: State, s': State, req: Request, op: Op, env: Env)
    requires WellFormed(s.m) && Answers(s, s', req, op, env) && InOrder(req, s.m.ctrl.state, true)
    requires req.BeginReq? || req.CountsReq? || req.AbortReq? || req.CutoverReq?
    ensures PhaseKnows(s')
  {
    ServeResult(s.sw, s.m, req, env);
  }

  /** ... or one of a drain. */
  lemma AnswersDraining(s: State, s': State, req: Request, op: Op, env: Env)
    requires WellFormed(s.m) && Answers(s, s', req, op, env) && InOrder(req, s.m.ctrl.state, true)
    requires req.GcReq? || req.CompleteReq?
    ensures PhaseKnows(s')
  {
    ServeResult(s.sw, s.m, req, env);
  }

  lemma HandleAnswered(s: State, s': State, req: Request, op: Op, env: Env)
    requires WellFormed(s.m) && Answers(s, s', req, op, env) && InOrder(req, s.m.ctrl.state, true) && !req.SourceReq?
    ensures PhaseKnows(s')
  {
    if EndsAll(req) {
      AnswersSettling(s, s', req, op, env);
    } else if req.GcReq? || req.CompleteReq? {
      AnswersDraining(s, s', req, op, env);
    } else {
      AnswersPriming(s, s', req, op, env);
    }
  }

  lemma HandleOp(c: Config, s: State, env: Env)
    requires Inv(s) && Enabled(s, Handle(env)) && !IsSource(s.reqs[0])
    ensures Inv(Next(c, s, Handle(env)))
  {
    var it := s.reqs[0];
    var s' := Next(c, s, Handle(env));
    assert it in s.reqs && Matches(it.tag.op, it.req);
    HandleQueues(s, s', Answer(it.tag, Serve(s.sw, s.m, it.req, env).rep));
    ServeKeepsShape(s.sw, s.m, it.req, env);
    if Mine(s.ctl, it) {
      HandleAnswered(s, s', it.req, it.tag.op, env);
    } else {
      HandleStale(s, s');
    }
  }

  lemma KeepHandle(c: Config, s: State, env: Env)
    requires Inv(s) && Enabled(s, Handle(env))
    ensures Inv(Next(c, s, Handle(env)))
  {
    if IsSource(s.reqs[0]) {
      HandleSource(c, s, env);
    } else {
      HandleOp(c, s, env);
    }
  }

  /** The controller asks while nothing is in flight. */
  lemma AskedWhileQuiet(s: State, s': State, it: Item)
    requires Queues(s) && FlightOf(s) == Quiet
    requires s'.reqs == s.reqs + [it] && s'.resps == s.resps && s'.m == s.m && s'.lost == s.lost
    requires s'.ctl.inc == s.ctl.inc && s'.ctl.data.gen == s.ctl.data.gen
    requires Mine(s.ctl, it) && Matches(it.tag.op, it.req) && InOrder(it.req, s.m.ctrl.state, s.lost)
    ensures Queues(s')
    ensures FlightOf(s') == if IsSource(it) then Quiet else Waiting(it.req, true)
  {
    OpsAppend(s.reqs, it);
  }

  /** A source query goes out, whatever else is in flight. */
  lemma AskedSource(s: State, s': State, it: Item)
    requires Queues(s) && it.req.SourceReq? && it.tag.op == OpSource
    requires s'.reqs == s.reqs + [it] && s'.resps == s.resps && s'.m == s.m && s'.lost == s.lost
    requires s'.ctl.inc == s.ctl.inc && s'.ctl.data.gen == s.ctl.data.gen
    requires Mine(s.ctl, it)
    ensures Queues(s') && FlightOf(s') == FlightOf(s)
  {
    OpsAppend(s.reqs, it);
    assert Ops(s'.reqs) == Ops(s.reqs);
  }

  /** A request that suits any state joins the line, once nothing before it is of the present. */
  lemma Superseded(ops: seq<Item>, ctl: Ctl, it: Item, ctl': Ctl, state: nat, lost: bool, lost': bool)
    requires Lined(ops, ctl, state, lost) && (lost ==> lost')
    requires forall i :: 0 <= i < |ops| ==> !Mine(ctl', ops[i])
    requires Mine(ctl', it) && EndsAll(it.req)
    ensures Lined(ops + [it], ctl', state, lost')
  {
  }

  lemma {:induction false} OpsTagged(q: seq<Item>, ctl: Ctl)
    requires Tagged(q, ctl)
    ensures Tagged(Ops(q), ctl)
    ensures forall i :: 0 <= i < |Ops(q)| ==> Ops(q)[i] in Ops(q)
  {
    OpsFrom(q);
  }

  /** A hard switch: nothing of the generation before counts any more. */
  lemma AskedSwitch(s: State, s': State, it: Item)
    requires Queues(s)
    requires s'.reqs == s.reqs + [it] && s'.resps == s.resps && s'.m == s.m && (s.lost ==> s'.lost)
    requires s'.ctl.inc == s.ctl.inc && s'.ctl.data.gen == s.ctl.data.gen + 1
    requires it.inc == s.ctl.inc && it.tag == Tag(OpSwitch, s'.ctl.data.gen) && it.req.SwitchReq?
    ensures Queues(s') && NoQuery(s')
    ensures FlightOf(s') == Waiting(it.req, Ops(s.reqs) == [])
  {
    OpsAppend(s.reqs, it);
    OpsTagged(s.reqs, s.ctl);
    Superseded(Ops(s.reqs), s.ctl, it, s'.ctl, s.m.ctrl.state, s.lost, s'.lost);
    NothingLive(s.resps, s'.ctl.data.gen);
  }

  lemma KeepCrash(s: State)
    requires Shape(s.sw, s.m) && Queues(s)
    ensures Inv(Crashed(s))
  {
    var s' := Crashed(s);
    var it := RecoverItem(s.ctl.inc + 1);
    OpsAppend(s.reqs, it);
    OpsTagged(s.reqs, s.ctl);
    Superseded(Ops(s.reqs), s.ctl, it, s'.ctl, s.m.ctrl.state, s.lost, s.lost);
    assert Queues(s');
    assert FlightOf(s').Waiting? && FlightOf(s').req == RecoverReq;
  }

  lemma FireRefresh(c: Config, s: State)
    requires Inv(s) && Enabled(s, Fire) && s.ctl.timer.value.msg == Refresh
    ensures Inv(Next(c, s, Fire))
  {
    RefreshTurn(c, s);
    StartsDiscovering(s, Next(c, s, Fire));
  }

  lemma RefreshTurn(c: Config, s: State)
    requires WellFormed(s.m) && Enabled(s, Fire) && s.ctl.timer.value.msg == Refresh && s.ctl.phase == Steady
    ensures Next(c, s, Fire) == s.(ctl := s.ctl.(timer := None, phase := Discovering, discovering := true))
  {
    ActOne(Acted(s.ctl.(timer := None, phase := Discovering), [], false), Discover(s.ctl.data.current.token), s.now);
    assert s.reqs + [] == s.reqs;
  }

  lemma StartsDiscovering(s: State, s': State)
    requires Inv(s) && s.ctl.phase == Steady
    requires s' == s.(ctl := s.ctl.(timer := None, phase := Discovering, discovering := true))
    ensures Inv(s')
  {
    QueuesFrame(s, s');
  }

  /** A state timeout that asks the softwire for something, in the phase it was started in. */
  lemma FireAsks(c: Config, s: State, op: Op, req: Request)
    requires Inv(s) && Enabled(s, Fire)
    requires (s.ctl.timer.value.msg, op, req) in {(Primed, OpCounts, CountsReq), (DrainTick, OpGc, GcReq)}
    ensures Inv(Next(c, s, Fire))
  {
    AskTurn(c, s, op, req);
    AskedInPhase(s, Next(c, s, Fire), Item(s.ctl.inc, Tag(op, s.ctl.data.gen), req));
  }

  lemma AskTurn(c: Config, s: State, op: Op, req: Request)
    requires WellFormed(s.m) && Enabled(s, Fire)
    requires (s.ctl.timer.value.msg, op, req) in {(Primed, OpCounts, CountsReq), (DrainTick, OpGc, GcReq)}
    ensures Next(c, s, Fire) == s.(ctl := s.ctl.(timer := None),
                                   reqs := s.reqs + [Item(s.ctl.inc, Tag(op, s.ctl.data.gen), req)])
  {
    ActOne(Acted(s.ctl.(timer := None), [], false), SendTo(op, s.ctl.data.gen, req), s.now);
  }

  lemma AskedInPhase(s: State, s': State, it: Item)
    requires Inv(s) && it.inc == s.ctl.inc && it.tag.gen == s.ctl.data.gen
    requires (TimerIs(s.ctl, Primed) && it.req == CountsReq && it.tag.op == OpCounts)
             || (TimerIs(s.ctl, DrainTick) && it.req == GcReq && it.tag.op == OpGc)
    requires s' == s.(ctl := s.ctl.(timer := None), reqs := s.reqs + [it])
    ensures Inv(s')
  {
    AskedWhileQuiet(s, s', it);
  }

  lemma KeepFire(c: Config, s: State)
    requires Inv(s) && Enabled(s, Fire)
    ensures Inv(Next(c, s, Fire))
  {
    match s.ctl.timer.value.msg
    case Refresh => FireRefresh(c, s);
    case Primed => FireAsks(c, s, OpCounts, CountsReq);
    case DrainTick => FireAsks(c, s, OpGc, GcReq);
    case _ =>
  }

  lemma PollTurn(c: Config, s: State)
    requires WellFormed(s.m) && Enabled(s, FirePoll)
    ensures Next(c, s, FirePoll) == s
            || (s.ctl.phase != Switching
                && exists it :: && IsSource(it) && it.req.SourceReq? && Mine(s.ctl, it)
                                && Next(c, s, FirePoll) == s.(reqs := s.reqs + [it]))
  {
    var a := Acted(s.ctl.(poll := false), [], false);
    if s.ctl.phase == Switching {
      ActOne(a, Postpone, s.now);
      assert s.reqs + [] == s.reqs;
    } else {
      var e := SendTo(OpSource, s.ctl.data.gen, SourceReq(s.ctl.data.current.aftr));
      ActTwo(a, e, StartTimeout(B4PollTimer, B4_POLL_INTERVAL, B4Poll), s.now);
      var it := Item(s.ctl.inc, e.tag, e.req);
      assert Next(c, s, FirePoll) == s.(reqs := s.reqs + [it]);
    }
  }

  lemma PolledKeeps(s: State, s': State, it: Item)
    requires Inv(s) && it.req.SourceReq? && it.tag.op == OpSource && Mine(s.ctl, it)
    requires s.ctl.phase != Switching && s.ctl.phase != Recovering && s' == s.(reqs := s.reqs + [it])
    ensures Inv(s')
  {
    AskedSource(s, s', it);
  }

  lemma KeepPoll(c: Config, s: State)
    requires Inv(s) && Enabled(s, FirePoll)
    ensures Inv(Next(c, s, FirePoll))
  {
    PollTurn(c, s);
    var s' := Next(c, s, FirePoll);
    if s' != s {
      var it :| IsSource(it) && it.req.SourceReq? && Mine(s.ctl, it) && s' == s.(reqs := s.reqs + [it]);
      PolledKeeps(s, s', it);
    }
  }

  /** A drain cap changes nothing but the mark it leaves, and that only in its own migration. */
  lemma CapTurn(c: Config, s: State, cap: Cap)
    requires WellFormed(s.m) && Enabled(s, FireCap(cap))
    ensures var d := s.ctl.data;
            Next(c, s, FireCap(cap)) ==
            s.(ctl := s.ctl.(caps := s.ctl.caps - {cap},
                             data := d.(capReached := d.capReached || cap.migration == d.migration)))
  {
    assert s.reqs + [] == s.reqs;
  }

  lemma QueuesFrame(s: State, s': State)
    requires Queues(s)
    requires s'.reqs == s.reqs && s'.resps == s.resps && s'.m == s.m && s'.lost == s.lost
    requires s'.ctl.inc == s.ctl.inc && s'.ctl.data.gen == s.ctl.data.gen
    ensures Queues(s') && FlightOf(s') == FlightOf(s) && (NoQuery(s) <==> NoQuery(s'))
  {
  }

  lemma KeepCap(c: Config, s: State, cap: Cap)
    requires Inv(s) && Enabled(s, FireCap(cap))
    ensures Inv(Next(c, s, FireCap(cap)))
  {
    var s' := Next(c, s, FireCap(cap));
    CapTurn(c, s, cap);
    QueuesFrame(s, s');
    PhaseFrame(s, s');
  }

  // ---------------------------------------------------------------- turns that change phase

  function SteadyTimer(c: Config, d: Data, now: nat): Option<Due> {
    if c.dynamicAftr then Some(Due(now + d.wait, Refresh)) else None
  }

  /** A turn into Steady that sends nothing. */
  lemma SteadyTurn(c: Config, ctl: Ctl, ev: Event, now: nat)
    requires var t := HandleEvent(c, ctl.phase, ctl.data, ev);
             && t.phase == Steady && ctl.phase != Steady
             && (t.effs == [] || t.effs == [CancelTimeout(DrainCapTimer)]
                 || t.effs == [StartTimeout(B4PollTimer, B4_POLL_INTERVAL, B4Poll)])
    ensures var t := HandleEvent(c, ctl.phase, ctl.data, ev);
            var a := Dispatch(c, ctl, ev, now);
            && a.sent == [] && !a.stopped
            && a.ctl == ctl.(phase := Steady, data := t.data, timer := SteadyTimer(c, t.data, now),
                             poll := ctl.poll || (t.effs != [] && t.effs[0].StartTimeout?))
  {
    var t := HandleEvent(c, ctl.phase, ctl.data, ev);
    var ctl1 := ctl.(phase := Steady, data := t.data, timer := None);
    if t.effs != [] {
      ActOne(Acted(ctl1, [], false), t.effs[0], now);
    }
    var a := ActAll(Acted(ctl1, [], false), t.effs, now);
    ActOne(a, StartStateTimeout(t.data.wait, Refresh), now);
  }

  /** A turn that sends one request and enters a phase with nothing to do on entry. */
  lemma SendingTurn(c: Config, ctl: Ctl, ev: Event, now: nat, req: Request, tag: Tag)
    requires var t := HandleEvent(c, ctl.phase, ctl.data, ev);
             && (t.phase == ctl.phase || t.phase == Priming || t.phase == Switching)
             && (t.effs == [Send(req, tag)] || t.effs == [CancelDiscover, Send(req, tag)])
    ensures var t := HandleEvent(c, ctl.phase, ctl.data, ev);
            var a := Dispatch(c, ctl, ev, now);
            && a.sent == [Item(ctl.inc, tag, req)] && !a.stopped
            && a.ctl == ctl.(phase := t.phase, data := t.data,
                             timer := if t.phase == ctl.phase then ctl.timer else None,
                             discovering := ctl.discovering && |t.effs| == 1)
  {
    var t := HandleEvent(c, ctl.phase, ctl.data, ev);
    var ctl1 := ctl.(phase := t.phase, data := t.data, timer := if t.phase == ctl.phase then ctl.timer else None);
    ActOne(Acted(ctl1, [], false), Send(req, tag), now);
    ActTwo(Acted(ctl1, [], false), CancelDiscover, Send(req, tag), now);
    assert [] + [Item(ctl.inc, tag, req)] == [Item(ctl.inc, tag, req)];
  }

  // ---------------------------------------------------------------- a discovery ends

  predicate Moves(d: Data, rep: DiscoverRep) {
    rep.ok && rep.disc.aftr != d.current.aftr
  }

  lemma DiscoveryTurn(c: Config, s: State, rep: DiscoverRep)
    requires WellFormed(s.m) && Enabled(s, FinishDiscovery(rep)) && s.ctl.phase == Discovering
    ensures var s' := Next(c, s, FinishDiscovery(rep));
            var d, d' := s.ctl.data, s'.ctl.data;
            && s'.ctl.inc == s.ctl.inc && !s'.ctl.discovering
            && d'.gen == d.gen && d'.b4 == d.b4 && d'.current.aftr == d.current.aftr
            && if Moves(d, rep) then
                 && s'.ctl.phase == Priming && s'.ctl.timer == None && d'.current == d.current && d'.next == rep.disc
                 && s' == s.(ctl := s'.ctl,
                             reqs := s.reqs + [Item(s.ctl.inc, Tag(OpBegin, d.gen), BeginReq(Endpoints(d.b4, rep.disc.aftr)))])
               else
                 && s'.ctl.phase == Steady && s'.ctl.timer == SteadyTimer(c, d', s.now)
                 && s' == s.(ctl := s'.ctl)
  {
    var ev := AsyncResult(rep);
    var ctl := s.ctl.(discovering := false);
    if Moves(s.ctl.data, rep) {
      SendingTurn(c, ctl, ev, s.now, BeginReq(Endpoints(s.ctl.data.b4, rep.disc.aftr)), Tag(OpBegin, s.ctl.data.gen));
    } else {
      SteadyTurn(c, ctl, ev, s.now);
      assert s.reqs + [] == s.reqs;
    }
  }

  lemma KeepDiscovery(c: Config, s: State, rep: DiscoverRep)
    requires Inv(s) && Enabled(s, FinishDiscovery(rep))
    ensures Inv(Next(c, s, FinishDiscovery(rep)))
  {
    DiscoveryTurn(c, s, rep);
    var d := s.ctl.data;
    if Moves(d, rep) {
      BeginsPriming(s, Next(c, s, FinishDiscovery(rep)),
                    Item(s.ctl.inc, Tag(OpBegin, d.gen), BeginReq(Endpoints(d.b4, rep.disc.aftr))));
    } else {
      BackToSteady(s, Next(c, s, FinishDiscovery(rep)));
    }
  }

  lemma BackToSteady(s: State, s': State)
    requires Inv(s) && s.ctl.phase == Discovering
    requires s'.ctl.phase == Steady && !s'.ctl.discovering && s'.ctl.inc == s.ctl.inc
    requires s'.ctl.timer.Some? ==> s'.ctl.timer.value.msg == Refresh
    requires s'.ctl.data.b4 == s.ctl.data.b4 && s'.ctl.data.current.aftr == s.ctl.data.current.aftr
    requires s'.ctl.data.gen == s.ctl.data.gen
    requires s' == s.(ctl := s'.ctl)
    ensures Inv(s')
  {
    QueuesFrame(s, s');
  }

  lemma BeginsPriming(s: State, s': State, it: Item)
    requires Inv(s) && s.ctl.phase == Discovering
    requires s'.ctl.phase == Priming && !s'.ctl.discovering && s'.ctl.timer == None && s'.ctl.inc == s.ctl.inc
    requires var d, d' := s.ctl.data, s'.ctl.data;
             d'.b4 == d.b4 && d'.current == d.current && d'.gen == d.gen && d'.next.aftr != d.current.aftr
    requires it == Item(s.ctl.inc, Tag(OpBegin, s.ctl.data.gen), BeginReq(Endpoints(s.ctl.data.b4, s'.ctl.data.next.aftr)))
    requires s' == s.(ctl := s'.ctl, reqs := s.reqs + [it])
    ensures Inv(s')
  {
    AskedWhileQuiet(s, s', it);
  }

  // ---------------------------------------------------------------- an answer arrives

  /** `s` with its first answer taken. */
  function Taken(s: State): State
    requires s.resps != []
  {
    s.(resps := s.resps[1..])
  }

  function Front(s: State): Event
    requires s.resps != []
  {
    Response(s.resps[0].tag, s.resps[0].rep)
  }

  /** The turn of the controller on the first answer. */
  function FrontTurn(c: Config, s: State): Turn
    requires s.resps != []
  {
    HandleEvent(c, s.ctl.phase, s.ctl.data, Front(s))
  }

  /** Taking an answer that is not live. */
  lemma TakenIdle(s: State)
    requires Inv(s) && s.resps != []
    requires s.resps[0].tag.gen != s.ctl.data.gen || s.resps[0].tag.op == OpSource
    ensures Inv(Taken(s))
  {
    var s' := Taken(s);
    assert Live(s'.resps, s.ctl.data.gen) == Live(s.resps, s.ctl.data.gen);
    assert FlightOf(s') == FlightOf(s);
    PhaseFrame(s, s');
  }

  /** Taking the live answer: nothing is in flight any more. */
  lemma TakenLive(s: State)
    requires Queues(s) && s.resps != []
    requires s.resps[0].tag.gen == s.ctl.data.gen && s.resps[0].tag.op != OpSource
    ensures Queues(Taken(s)) && FlightOf(Taken(s)) == Quiet
    ensures FlightOf(s) == Answered(s.resps[0].tag.op, s.resps[0].rep)
    ensures NoQuery(s) ==> NoQuery(Taken(s))
  {
    var s' := Taken(s);
    assert Live(s.resps, s.ctl.data.gen) == [s.resps[0]] + Live(s'.resps, s.ctl.data.gen);
  }

  lemma IdleTurn(c: Config, s: State)
    requires WellFormed(s.m) && s.resps != [] && FrontTurn(c, s) == Turn(s.ctl.phase, s.ctl.data, [])
    ensures Next(c, s, Deliver) == Taken(s)
  {
    assert s.reqs + [] == s.reqs;
  }

  lemma QuietTurn(c: Config, s: State)
    requires WellFormed(s.m) && s.resps != []
    requires var t := FrontTurn(c, s);
             && t.phase == Steady && s.ctl.phase != Steady
             && (t.effs == [] || t.effs == [CancelTimeout(DrainCapTimer)]
                 || t.effs == [StartTimeout(B4PollTimer, B4_POLL_INTERVAL, B4Poll)])
    ensures var t := FrontTurn(c, s);
            Next(c, s, Deliver) ==
            Taken(s).(ctl := s.ctl.(phase := Steady, data := t.data, timer := SteadyTimer(c, t.data, s.now),
                                    poll := s.ctl.poll || (t.effs != [] && t.effs[0].StartTimeout?)))
  {
    SteadyTurn(c, s.ctl, Front(s), s.now);
    assert s.reqs + [] == s.reqs;
  }

  lemma AskingTurn(c: Config, s: State, req: Request, tag: Tag)
    requires WellFormed(s.m) && s.resps != []
    requires var t := FrontTurn(c, s);
             && (t.phase == s.ctl.phase || t.phase == Switching)
             && (t.effs == [Send(req, tag)] || t.effs == [CancelDiscover, Send(req, tag)])
    ensures var t := FrontTurn(c, s);
            Next(c, s, Deliver) ==
            Taken(s).(ctl := s.ctl.(phase := t.phase, data := t.data,
                                    timer := if t.phase == s.ctl.phase then s.ctl.timer else None,
                                    discovering := s.ctl.discovering && |t.effs| == 1),
                      reqs := s.reqs + [Item(s.ctl.inc, tag, req)],
                      lost := s.lost || Leaves(s.ctl.phase, t.phase))
  {
    SendingTurn(c, s.ctl, Front(s), s.now, req, tag);
  }

  lemma WaitingTurn(c: Config, s: State, after: int, msg: Msg)
    requires WellFormed(s.m) && s.resps != []
    requires var t := FrontTurn(c, s);
             t.phase == s.ctl.phase && t.effs == [StartStateTimeout(after, msg)]
    ensures Next(c, s, Deliver) ==
            Taken(s).(ctl := s.ctl.(data := FrontTurn(c, s).data, timer := Some(Due(s.now + after, msg))))
  {
    var t := FrontTurn(c, s);
    ActOne(Acted(s.ctl.(data := t.data), [], false), StartStateTimeout(after, msg), s.now);
    assert s.reqs + [] == s.reqs;
  }

  lemma StoppingTurn(c: Config, s: State)
    requires WellFormed(s.m) && s.resps != [] && FrontTurn(c, s) == Turn(s.ctl.phase, s.ctl.data, [Stop])
    ensures Next(c, s, Deliver) == Crashed(Taken(s))
  {
    ActOne(Acted(s.ctl, [], false), Stop, s.now);
    assert s.reqs + [] == s.reqs;
  }

  lemma DrainingTurn(c: Config, s: State)
    requires WellFormed(s.m) && s.resps != []
    requires s.ctl.phase != Draining && FrontTurn(c, s) == Turn(Draining, s.ctl.data, [])
    ensures Next(c, s, Deliver) ==
            Taken(s).(ctl := s.ctl.(phase := Draining, data := s.ctl.data.(capReached := false),
                                    timer := Some(Due(s.now + DRAIN_INTERVAL, DrainTick)),
                                    caps := s.ctl.caps + {Cap(s.now + MAX_DRAIN_DURATION, s.ctl.data.migration)}))
  {
    var d := s.ctl.data.(capReached := false);
    var a := Acted(s.ctl.(phase := Draining, data := d, timer := None), [], false);
    ActTwo(a, StartStateTimeout(DRAIN_INTERVAL, DrainTick),
           StartTimeout(DrainCapTimer, MAX_DRAIN_DURATION, DrainCap(s.ctl.data.migration)), s.now);
    assert s.reqs + [] == s.reqs;
  }

  // What the phases make of those turns.

  /** Everything answered, and the endpoints in use are what the new data says. */
  lemma Settles(s: State, s': State)
    requires Inv(s) && s.resps != [] && s.resps[0].tag.gen == s.ctl.data.gen && s.resps[0].tag.op != OpSource
    requires s' == Taken(s).(ctl := s'.ctl)
    requires s'.ctl.inc == s.ctl.inc && s'.ctl.data.gen == s.ctl.data.gen
    requires s'.ctl.phase == Steady && !s'.ctl.discovering
    requires s'.ctl.timer.Some? ==> s'.ctl.timer.value.msg == Refresh
    requires !s.lost ==> s.m.ctrl.state == STEADY && s.sw.active == Endpoints(s'.ctl.data.b4, s'.ctl.data.current.aftr)
    ensures Inv(s')
  {
    TakenLive(s);
    QueuesFrame(Taken(s), s');
  }

  lemma StaysInMigration(s: State, s': State, msg: Msg)
    requires Inv(s) && s.resps != [] && s.resps[0].tag.gen == s.ctl.data.gen && s.resps[0].tag.op != OpSource
    requires s' == Taken(s).(ctl := s.ctl.(data := s'.ctl.data, timer := s'.ctl.timer))
    requires TimerIs(s'.ctl, msg) && (s.ctl.phase == Priming ==> Begun(FlightOf(s)))
    requires var d, d' := s.ctl.data, s'.ctl.data;
             d'.gen == d.gen && d'.b4 == d.b4 && d'.current == d.current && d'.next == d.next
    requires (s.ctl.phase == Priming && msg == Primed && s.m.ctrl.state == PRIMING)
             || (s.ctl.phase == Draining && msg == DrainTick && s.m.ctrl.state == DRAINING)
    ensures Inv(s')
  {
    TakenLive(s);
    QueuesFrame(Taken(s), s');
  }

  lemma AsksInMigration(s: State, s': State, it: Item)
    requires Inv(s) && s.resps != [] && s.resps[0].tag.gen == s.ctl.data.gen && s.resps[0].tag.op != OpSource
    requires s' == Taken(s).(ctl := s.ctl.(data := s'.ctl.data), reqs := s.reqs + [it])
    requires var d, d' := s.ctl.data, s'.ctl.data;
             d'.gen == d.gen && d'.b4 == d.b4 && d'.current == d.current && d'.next == d.next
    requires Mine(s.ctl, it) && Matches(it.tag.op, it.req)
    requires s.ctl.phase == Priming ==> Begun(FlightOf(s))
    requires (s.ctl.phase == Priming && (it.req == AbortReq || it.req == CutoverReq) && s.m.ctrl.state == PRIMING)
             || (s.ctl.phase == Draining && it.req == CompleteReq && s.m.ctrl.state == DRAINING)
    ensures Inv(s')
  {
    TakenLive(s);
    AskedWhileQuiet(Taken(s), s', it);
  }

  lemma EntersDraining(s: State, s': State)
    requires Inv(s) && s.resps != [] && s.resps[0].tag.gen == s.ctl.data.gen && s.resps[0].tag.op != OpSource
    requires s.ctl.phase == Priming && s.m.ctrl.state == DRAINING && Begun(FlightOf(s))
    requires s' == Taken(s).(ctl := s.ctl.(phase := Draining, data := s.ctl.data.(capReached := false),
                                           timer := s'.ctl.timer, caps := s'.ctl.caps))
    requires TimerIs(s'.ctl, DrainTick)
    ensures Inv(s')
  {
    TakenLive(s);
    QueuesFrame(Taken(s), s');
  }

  lemma SwitchesHard(s: State, s': State, it: Item)
    requires Inv(s) && s.resps != [] && s.resps[0].tag.op == OpSource
    requires s'.ctl.phase == Switching && s'.ctl.timer == None && !s'.ctl.discovering
    requires s.ctl.phase != Recovering && s.ctl.phase != Switching
    requires s'.ctl.inc == s.ctl.inc && s'.ctl.data.gen == s.ctl.data.gen + 1
    requires s'.ctl.data.b4 == s.ctl.data.b4 && s'.ctl.data.current == s.ctl.data.current
    requires it == Item(s.ctl.inc, Tag(OpSwitch, s'.ctl.data.gen),
                        SwitchReq(Endpoints(s'.ctl.data.switchB4, s'.ctl.data.switchTo.aftr)))
    requires s' == Taken(s).(ctl := s'.ctl, reqs := s.reqs + [it], lost := s.lost || Leaves(s.ctl.phase, Switching))
    ensures Inv(s')
  {
    TakenIdle(s);
    AskedSwitch(Taken(s), s', it);
  }

  lemma DeliverSource(c: Config, s: State)
    requires Inv(s) && s.resps != [] && s.resps[0].tag == Tag(OpSource, s.ctl.data.gen)
    ensures Inv(Next(c, s, Deliver))
  {
    var t := FrontTurn(c, s);
    if t == Turn(s.ctl.phase, s.ctl.data, []) {
      IdleTurn(c, s);
      TakenIdle(s);
    } else {
      assert s.ctl.phase != Recovering && s.ctl.phase != Switching by { assert s.resps[0] in s.resps; }
      var it := HardSwitchItem(c, s);
      SwitchesHard(s, Next(c, s, Deliver), it);
    }
  }

  /** The hard switch a source answer brings about. */
  lemma HardSwitchItem(c: Config, s: State) returns (it: Item)
    requires WellFormed(s.m) && s.resps != [] && s.resps[0].tag == Tag(OpSource, s.ctl.data.gen)
    requires FrontTurn(c, s) != Turn(s.ctl.phase, s.ctl.data, [])
    requires s.ctl.phase != Switching && (s.ctl.discovering ==> s.ctl.phase == Discovering)
    ensures var s' := Next(c, s, Deliver);
            var d := s'.ctl.data;
            && s' == Taken(s).(ctl := s'.ctl, reqs := s.reqs + [it], lost := s.lost || Leaves(s.ctl.phase, Switching))
            && s'.ctl.phase == Switching && s'.ctl.timer == None && !s'.ctl.discovering
            && s'.ctl.inc == s.ctl.inc && s'.ctl.poll == s.ctl.poll && d.gen == s.ctl.data.gen + 1
            && it == Item(s.ctl.inc, Tag(OpSwitch, d.gen), SwitchReq(Endpoints(d.switchB4, d.switchTo.aftr)))
            && d.switchTo == (if s.ctl.phase == Draining then s.ctl.data.next else s.ctl.data.current)
            && d.b4 == s.ctl.data.b4 && d.current == s.ctl.data.current
            && s.resps[0].rep.SourceRep? && d.switchB4 == s.resps[0].rep.addr && UsableB4(d.switchB4)
  {
    var t := FrontTurn(c, s);
    var d := t.data;
    var req := SwitchReq(Endpoints(d.switchB4, d.switchTo.aftr));
    var tag := Tag(OpSwitch, d.gen);
    assert [CancelDiscover] + [Send(req, tag)] == [CancelDiscover, Send(req, tag)];
    assert t.effs == (if s.ctl.phase == Discovering then [CancelDiscover] else []) + [Send(req, tag)];
    AskingTurn(c, s, req, tag);
    it := Item(s.ctl.inc, tag, req);
  }

  /** What it can be, outside the two migration phases. */
  lemma OutsideFront(s: State)
    requires Inv(s) && s.resps != [] && s.resps[0].tag.gen == s.ctl.data.gen && s.resps[0].tag.op != OpSource
    requires s.ctl.phase != Priming && s.ctl.phase != Draining
    ensures (s.ctl.phase == Recovering && s.resps[0].tag.op == OpRecover && s.resps[0].rep.Recovered?)
            || (s.ctl.phase == Switching && s.resps[0].tag.op == OpSwitch && s.resps[0].rep.DoneRep?)
  {
    TakenLive(s);
  }

  lemma RecoverStops(c: Config, s: State)
    requires WellFormed(s.m) && s.resps != [] && s.ctl.phase == Recovering
    requires s.resps[0].tag == Tag(OpRecover, s.ctl.data.gen) && s.resps[0].rep.Recovered? && !s.resps[0].rep.ok
    ensures Next(c, s, Deliver) == Crashed(Taken(s))
  {
    StoppingTurn(c, s);
  }

  /** The controller settles on what it recovered, on what it switched to, or where it was. */
  lemma OutsideTurn(c: Config, s: State)
    requires WellFormed(s.m) && s.resps != [] && s.resps[0].tag.gen == s.ctl.data.gen
    requires (s.ctl.phase == Recovering && s.resps[0].tag.op == OpRecover && s.resps[0].rep.Recovered? && s.resps[0].rep.ok)
             || (s.ctl.phase == Switching && s.resps[0].tag.op == OpSwitch && s.resps[0].rep.DoneRep?)
    ensures var s' := Next(c, s, Deliver); var d, d' := s.ctl.data, s'.ctl.data; var rep := s.resps[0].rep;
            && s' == Taken(s).(ctl := s'.ctl)
            && s'.ctl.phase == Steady && s'.ctl.inc == s.ctl.inc && s'.ctl.caps == s.ctl.caps
            && s'.ctl.discovering == s.ctl.discovering
            && (s'.ctl.timer.Some? ==> s'.ctl.timer.value.msg == Refresh)
            && d'.gen == d.gen && d'.migration == d.migration
            && Endpoints(d'.b4, d'.current.aftr)
               == (if rep.Recovered? then rep.ends
                   else if rep.ok then Endpoints(d.switchB4, d.switchTo.aftr)
                   else Endpoints(d.b4, d.current.aftr))
  {
    QuietTurn(c, s);
  }

  /** The answer the controller waits for, outside the two migration phases. */
  lemma DeliverOutside(c: Config, s: State)
    requires Inv(s) && s.resps != [] && s.resps[0].tag.gen == s.ctl.data.gen && s.resps[0].tag.op != OpSource
    requires s.ctl.phase != Priming && s.ctl.phase != Draining
    ensures Inv(Next(c, s, Deliver))
  {
    TakenLive(s);
    OutsideFront(s);
    if s.ctl.phase == Recovering && !s.resps[0].rep.ok {
      RecoverStops(c, s);
      KeepCrash(Taken(s));
    } else {
      OutsideTurn(c, s);
      Settles(s, Next(c, s, Deliver));
    }
  }

  /** The answers of a priming that goes on. */
  lemma PrimingFront(s: State)
    requires Inv(s) && s.resps != [] && s.resps[0].tag.gen == s.ctl.data.gen && s.ctl.phase == Priming
    requires s.resps[0].tag.op == OpCounts || (s.resps[0].tag.op == OpCutover && !s.resps[0].rep.ok)
    ensures s.m.ctrl.state == PRIMING && Begun(FlightOf(s)) && (s.resps[0].tag.op == OpCounts ==> s.resps[0].rep.CountsRep?)
    ensures FlightOf(s) == Answered(s.resps[0].tag.op, s.resps[0].rep)
  {
    TakenLive(s);
  }

  /** It is cut over if no recording failed, else rolled back. */
  function PrimingAsks(s: State): Item
    requires s.resps != []
  {
    var rep, gen := s.resps[0].rep, s.ctl.data.gen;
    if s.resps[0].tag.op == OpCounts && rep.ok && rep.CountsRep? && rep.counts.fails == s.ctl.data.baseline.fails
    then Item(s.ctl.inc, Tag(OpCutover, gen), CutoverReq)
    else Item(s.ctl.inc, Tag(OpAbort, gen), AbortReq)
  }

  lemma PrimingTurn(c: Config, s: State)
    requires WellFormed(s.m) && s.resps != [] && s.resps[0].tag.gen == s.ctl.data.gen && s.ctl.phase == Priming
    requires (s.resps[0].tag.op == OpCounts && s.resps[0].rep.CountsRep?)
             || (s.resps[0].tag.op == OpCutover && !s.resps[0].rep.ok)
    ensures var s' := Next(c, s, Deliver);
            && s' == Taken(s).(ctl := s.ctl.(data := s'.ctl.data), reqs := s.reqs + [PrimingAsks(s)])
            && s'.ctl.data == s.ctl.data.(recorded := s'.ctl.data.recorded, abortWhy := s'.ctl.data.abortWhy)
  {
    AskingTurn(c, s, PrimingAsks(s).req, PrimingAsks(s).tag);
  }

  /** The migration goes on, or rolls back. */
  lemma DeliverPrimingAsks(c: Config, s: State)
    requires Inv(s) && s.resps != [] && s.resps[0].tag.gen == s.ctl.data.gen
    requires s.resps[0].tag.op == OpCounts || (s.resps[0].tag.op == OpCutover && !s.resps[0].rep.ok)
    requires s.ctl.phase == Priming
    ensures Inv(Next(c, s, Deliver))
  {
    PrimingFront(s);
    PrimingTurn(c, s);
    AsksInMigration(s, Next(c, s, Deliver), PrimingAsks(s));
  }

  /** The migration is over, rolled back or never begun. */
  lemma DeliverPrimingEnds(c: Config, s: State)
    requires Inv(s) && s.resps != [] && s.resps[0].tag.gen == s.ctl.data.gen
    requires s.resps[0].tag.op == OpAbort || (s.resps[0].tag.op == OpBegin && !s.resps[0].rep.ok)
    requires s.ctl.phase == Priming
    ensures Inv(Next(c, s, Deliver))
  {
    TakenLive(s);
    QuietTurn(c, s);
    Settles(s, Next(c, s, Deliver));
  }

  lemma DeliverPriming(c: Config, s: State)
    requires Inv(s) && s.resps != [] && s.resps[0].tag.gen == s.ctl.data.gen && s.resps[0].tag.op != OpSource
    requires s.ctl.phase == Priming
    ensures Inv(Next(c, s, Deliver))
  {
    TakenLive(s);
    var op, rep := s.resps[0].tag.op, s.resps[0].rep;
    if op == OpCounts || (op == OpCutover && !rep.ok) {
      DeliverPrimingAsks(c, s);
    } else if op == OpAbort || (op == OpBegin && !rep.ok) {
      DeliverPrimingEnds(c, s);
    } else if op == OpBegin {
      WaitingTurn(c, s, PRIMING_DURATION, Primed);
      StaysInMigration(s, Next(c, s, Deliver), Primed);
    } else {
      DrainingTurn(c, s);
      EntersDraining(s, Next(c, s, Deliver));
    }
  }

  /** The answers of a drain. */
  lemma DrainingFront(s: State)
    requires Inv(s) && s.resps != [] && s.resps[0].tag.gen == s.ctl.data.gen && s.resps[0].tag.op != OpSource
    requires s.ctl.phase == Draining
    ensures (s.resps[0].tag.op == OpGc && s.resps[0].rep.GcRep? && s.m.ctrl.state == DRAINING)
            || (s.resps[0].tag.op == OpComplete && s.resps[0].rep.DoneRep?
                && s.m.ctrl.state == (if s.resps[0].rep.ok then STEADY else DRAINING))
  {
    TakenLive(s);
  }

  lemma CompletedTurn(c: Config, s: State)
    requires WellFormed(s.m) && s.resps != [] && s.ctl.phase == Draining
    requires s.resps[0].tag == Tag(OpComplete, s.ctl.data.gen) && s.resps[0].rep.ok
    ensures var s' := Next(c, s, Deliver); var d, d' := s.ctl.data, s'.ctl.data;
            && s' == Taken(s).(ctl := s'.ctl)
            && s'.ctl.phase == Steady && s'.ctl.inc == s.ctl.inc && s'.ctl.caps == s.ctl.caps
            && s'.ctl.discovering == s.ctl.discovering
            && (s'.ctl.timer.Some? ==> s'.ctl.timer.value.msg == Refresh)
            && d'.gen == d.gen && d'.migration == d.migration && d'.b4 == d.b4 && d'.current == d.next
  {
    QuietTurn(c, s);
  }

  predicate Done(s: State)
    requires s.resps != []
  {
    var rep := s.resps[0].rep;
    s.resps[0].tag.op == OpGc && rep.ok && rep.GcRep? && !(rep.remaining > 0 && !s.ctl.data.capReached)
  }

  lemma CompletesTurn(c: Config, s: State)
    requires WellFormed(s.m) && s.resps != [] && s.ctl.phase == Draining
    requires s.resps[0].tag.gen == s.ctl.data.gen && Done(s)
    ensures Next(c, s, Deliver)
            == Taken(s).(reqs := s.reqs + [Item(s.ctl.inc, Tag(OpComplete, s.ctl.data.gen), CompleteReq)])
  {
    AskingTurn(c, s, CompleteReq, Tag(OpComplete, s.ctl.data.gen));
  }

  lemma DrainsOnTurn(c: Config, s: State)
    requires WellFormed(s.m) && s.resps != [] && s.ctl.phase == Draining && s.resps[0].tag.gen == s.ctl.data.gen
    requires (s.resps[0].tag.op == OpGc && s.resps[0].rep.GcRep? && !Done(s))
             || (s.resps[0].tag.op == OpComplete && !s.resps[0].rep.ok)
    ensures Next(c, s, Deliver) == Taken(s).(ctl := s.ctl.(timer := Some(Due(s.now + DRAIN_INTERVAL, DrainTick))))
  {
    WaitingTurn(c, s, DRAIN_INTERVAL, DrainTick);
  }

  lemma DeliverDraining(c: Config, s: State)
    requires Inv(s) && s.resps != [] && s.resps[0].tag.gen == s.ctl.data.gen && s.resps[0].tag.op != OpSource
    requires s.ctl.phase == Draining
    ensures Inv(Next(c, s, Deliver))
  {
    DrainingFront(s);
    if s.resps[0].tag.op == OpComplete && s.resps[0].rep.ok {
      CompletedTurn(c, s);
      Settles(s, Next(c, s, Deliver));
    } else if Done(s) {
      CompletesTurn(c, s);
      AsksInMigration(s, Next(c, s, Deliver), Item(s.ctl.inc, Tag(OpComplete, s.ctl.data.gen), CompleteReq));
    } else {
      DrainsOnTurn(c, s);
      StaysInMigration(s, Next(c, s, Deliver), DrainTick);
    }
  }

  lemma DeliverStale(c: Config, s: State)
    requires Inv(s) && Enabled(s, Deliver) && s.resps[0].tag.gen != s.ctl.data.gen
    ensures Inv(Next(c, s, Deliver))
  {
    IdleTurn(c, s);
    TakenIdle(s);
  }

  lemma KeepDeliver(c: Config, s: State)
    requires Inv(s) && Enabled(s, Deliver)
    ensures Inv(Next(c, s, Deliver))
  {
    var tag := s.resps[0].tag;
    if tag.gen != s.ctl.data.gen {
      DeliverStale(c, s);
    } else if tag.op == OpSource {
      DeliverSource(c, s);
    } else if s.ctl.phase == Priming {
      DeliverPriming(c, s);
    } else if s.ctl.phase == Draining {
      DeliverDraining(c, s);
    } else {
      DeliverOutside(c, s);
    }
  }

  // ---------------------------------------------------------------- whole runs

  lemma InvStep(c: Config, s: State, step: Step)
    requires Inv(s) && Enabled(s, step)
    ensures Inv(Next(c, s, step))
  {
    match step
    case Tick(now) =>
      QueuesFrame(s, Next(c, s, step));
      PhaseFrame(s, Next(c, s, step));
    case Fire => KeepFire(c, s);
    case FirePoll => KeepPoll(c, s);
    case FireCap(cap) => KeepCap(c, s, cap);
    case FinishDiscovery(rep) => KeepDiscovery(c, s, rep);
    case Deliver => KeepDeliver(c, s);
    case Handle(env) => KeepHandle(c, s, env);
    case Crash => KeepCrash(s);
    case RestartServer => KeepCrash(s.(reqs := []));
  }

  /** `t'` is `s'` with another softwire, and the answers that were behind unless it is a new life. */
  ghost predicate Framed(s: State, s': State, t: State, t': State, more: seq<Answer>) {
    && t' == s'.(resps := if s'.ctl.inc == s.ctl.inc then s'.resps + more else [], sw := t.sw, m := t.m)
    && (s'.ctl.inc == s.ctl.inc || (s'.ctl.inc == s.ctl.inc + 1 && s'.resps == []))
  }

  lemma DeliverFrame(c: Config, s: State, t: State, more: seq<Answer>)
    requires WellFormed(s.m) && WellFormed(t.m) && Enabled(s, Deliver)
    requires t == s.(resps := s.resps + more, sw := t.sw, m := t.m)
    ensures Enabled(t, Deliver) && Framed(s, Next(c, s, Deliver), t, Next(c, t, Deliver), more)
  {
    assert t.resps[0] == s.resps[0] && t.resps[1..] == s.resps[1..] + more;
    IncKept(c, s.ctl, Front(s), s.now);
  }

  lemma TimerFrame(c: Config, s: State, t: State, more: seq<Answer>, step: Step)
    requires WellFormed(s.m) && WellFormed(t.m) && (step.Fire? || step.FirePoll? || step.FireCap?) && Enabled(s, step)
    requires t == s.(resps := s.resps + more, sw := t.sw, m := t.m)
    ensures Enabled(t, step) && Framed(s, Next(c, s, step), t, Next(c, t, step), more)
  {
    if step.Fire? {
      IncKept(c, s.ctl.(timer := None), StateTimeout(s.ctl.timer.value.msg), s.now);
    } else if step.FirePoll? {
      IncKept(c, s.ctl.(poll := false), Timeout(B4Poll), s.now);
    } else {
      IncKept(c, s.ctl.(caps := s.ctl.caps - {step.cap}), Timeout(DrainCap(step.cap.migration)), s.now);
    }
  }

  /** A step of the controller depends on nothing but the controller, the queues and the clock, and
      of the answers only on the first. */
  lemma ControlFrame(c: Config, s: State, t: State, more: seq<Answer>, step: Step)
    requires WellFormed(s.m) && WellFormed(t.m) && !step.Handle? && Enabled(s, step)
    requires t == s.(resps := s.resps + more, sw := t.sw, m := t.m)
    ensures Enabled(t, step) && Framed(s, Next(c, s, step), t, Next(c, t, step), more)
  {
    if step.Deliver? {
      DeliverFrame(c, s, t, more);
    } else if step.Fire? || step.FirePoll? || step.FireCap? {
      TimerFrame(c, s, t, more, step);
    } else if step.FinishDiscovery? {
      IncKept(c, s.ctl.(discovering := false), AsyncResult(step.rep), s.now);
    }
  }

  lemma {:induction false} ActKeepsInc(a: Acted, es: seq<Effect>, now: nat)
    ensures ActAll(a, es, now).ctl.inc == a.ctl.inc
    decreases |es|
  {
    if es != [] {
      ActKeepsInc(Act(a, es[0], now), es[1..], now);
    }
  }

  lemma IncKept(c: Config, ctl: Ctl, ev: Event, now: nat)
    ensures Dispatch(c, ctl, ev, now).ctl.inc == ctl.inc
  {
    var t := HandleEvent(c, ctl.phase, ctl.data, ev);
    var moved := t.phase != ctl.phase;
    var ctl1 := ctl.(phase := t.phase, data := t.data, timer := if moved then None else ctl.timer);
    ActKeepsInc(Acted(ctl1, [], false), t.effs, now);
    var a := ActAll(Acted(ctl1, [], false), t.effs, now);
    var e := HandleEvent(c, t.phase, t.data, Enter);
    ActKeepsInc(a.(ctl := a.ctl.(data := e.data)), e.effs, now);
  }
}
