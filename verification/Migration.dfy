/** The migration protocol at the grain packets see: every loader operation is a sequence of single
    map writes, and packets in both directions run between any two of them. It refines Protocol. */
module Migration {
  import opened Wrappers
  import opened Addresses
  import opened Datapath
  import opened FlowAffinity
  import opened Controlling
  import opened Serving
  import P = Protocol
  import opened Decisions

  /** The softwire between requests, or in the middle of one: the writes still to make, and the
      state and reply it will come to. */
  datatype Work = Idle | Busy(item: P.Item, writes: seq<Write>, sw: Sw, rep: Reply)

  /** What happened, for the record only. `gen` counts priming passes without wrapping, `stamp` is
      the pass each flow of the table was last recorded in, and `gcGen` the pass of the last
      collection. `seen` are the flows the datapath handled in this priming pass, and `counted` those
      it had handled when the counters were last read in it. */
  datatype History = History(
    gen: nat,
    gcGen: nat,
    stamp: map<FlowKey, nat>,
    overrun: bool,
    seen: set<FlowKey>,
    counted: Option<set<FlowKey>>,
    k: Known)

  datatype Sys = Sys(
    ctl: P.Ctl,
    reqs: seq<P.Item>,
    work: Work,
    resps: seq<P.Answer>,
    sw: Sw,
    m: Maps,
    flows: Flows,
    now: nat,
    lost: bool,
    h: History)

  datatype Step =
    | Control(step: P.Step)
    | Start(readable: bool, source: Reply)
    | WriteOne
    | Finish
    | Encap(inner: Inner, room: bool)
    | Decap(inner: Inner, room: bool)

  // ---------------------------------------------------------------- abstraction

  function Pending(s: Sys): seq<Write> {
    if s.work.Busy? then s.work.writes else []
  }

  /** The answer on its way out of a busy softwire, unless its controller is dead. */
  function Leaving(s: Sys): seq<P.Answer> {
    if s.work.Busy? && s.work.item.inc == s.ctl.inc then [P.Answer(s.work.item.tag, s.work.rep)] else []
  }

  /** The request being served counts as served. */
  function Abs(s: Sys): P.State
    requires WellFormed(s.m)
  {
    P.State(s.ctl, s.reqs, s.resps + Leaving(s), if s.work.Busy? then s.work.sw else s.sw,
            ApplyAll(s.m, Pending(s)), s.now, s.lost)
  }

  function Raw(s: Sys): P.State {
    P.State(s.ctl, s.reqs, s.resps, s.sw, s.m, s.now, s.lost)
  }

  // ---------------------------------------------------------------- steps

  predicate Enabled(s: Sys, step: Step) {
    match step
    case Control(p) => !p.Handle? && P.Enabled(Raw(s), p) && (p.RestartServer? ==> s.work.Idle?)
    case Start(_, _) => s.work.Idle? && s.reqs != []
    case WriteOne => Pending(s) != []
    case Finish => s.work.Busy? && s.work.writes == []
    case Encap(_, _) => true
    case Decap(_, _) => true
  }

  /** What the request at the front meets. */
  function EnvOf(s: Sys, readable: bool, source: Reply): Env {
    Env(readable, source, Counts(s.flows.inserts, s.flows.fails), |Collect(s.m.ctrl, s.flows.table, s.now, FLOW_IDLE)|)
  }

  predicate LostAfter(s: Sys, it: P.Item, rep: Reply) {
    if P.Mine(s.ctl, it) then P.StillLost(s.lost, it.req, rep.ok) else s.lost
  }

  function Next(c: Config, s: Sys, step: Step): Sys
    requires WellFormed(s.m) && Enabled(s, step)
  {
    match step
    case Control(p) =>
      var r := P.Next(c, Raw(s), p);
      s.(ctl := r.ctl, reqs := r.reqs, resps := r.resps, now := r.now, lost := r.lost,
         h := s.h.(k := Noted(s.h.k, s.ctl, p)))
    case Start(readable, source) =>
      var it := s.reqs[0];
      var r := Serve(s.sw, s.m, it.req, EnvOf(s, readable, source));
      var s' := s.(reqs := s.reqs[1..], work := Busy(it, r.writes, r.sw, r.rep), lost := LostAfter(s, it, r.rep),
                   h := s.h.(k := Learned(s.h.k, it.req, r.rep)));
      if it.req.GcReq? && readable then Collected(s')
      else if it.req.CountsReq? && readable then s'.(h := s'.h.(counted := Some(s.h.seen)))
      else s'
    case WriteOne =>
      var w := s.work.writes[0];
      s.(m := Apply(s.m, w), work := s.work.(writes := s.work.writes[1..]), h := Recorded(s, w))
    case Finish =>
      s.(sw := s.work.sw, resps := s.resps + Leaving(s), work := Idle)
    case Encap(inner, room) =>
      var key := BuildFlowKey(inner, false);
      Handled(s, key, Pick(s.m.ctrl, s.flows, key, s.now, room).flows)
    case Decap(inner, room) =>
      var key := BuildFlowKey(inner, true);
      Handled(s, key, FlowAffinity.Refresh(s.m.ctrl, s.flows, key, s.now, room))
  }

  /** A collection, in one step: it collects first and deletes afterwards. */
  function Collected(s: Sys): Sys {
    var table := Collect(s.m.ctrl, s.flows.table, s.now, FLOW_IDLE);
    s.(flows := s.flows.(table := table),
       h := s.h.(gcGen := s.h.gen, stamp := map k | k in s.h.stamp && k in table :: s.h.stamp[k]))
  }

  /** The record of a write of the control word. */
  function Recorded(s: Sys, w: Write): History {
    if w.PutCtrl? && w.c.state == PRIMING then
      s.h.(gen := s.h.gen + 1, overrun := s.h.overrun || s.h.gen + 1 - s.h.gcGen > 255,
           seen := {}, counted := None, k := s.h.k.(primedAt := s.now))
    else if w.PutCtrl? && w.c.state == DRAINING then
      s.h.(k := s.h.k.(drainAt := s.now, capped := false))
    else s.h
  }

  /** The record of a packet of flow `key` that left the table as `flows`. */
  function Handled(s: Sys, key: FlowKey, flows: Flows): Sys {
    if s.m.ctrl.state != PRIMING then s.(flows := flows)
    else
      s.(flows := flows,
         h := s.h.(seen := s.h.seen + {key},
                   stamp := if flows.fails == s.flows.fails then s.h.stamp[key := s.h.gen] else s.h.stamp))
  }

  ghost predicate Init(s: Sys, ends: Endpoints) {
    && P.Init(Raw(s), ends) && s.work == Idle
    && s.flows == Flows(map[], 0, 0)
    && s.h == History(0, 0, map[], false, {}, None, Known(0, None, None, s.now, s.now, false))
  }

  // ---------------------------------------------------------------- refinement

  /** The step of Protocol a step stands for; the others change nothing there. */
  function AbsStep(s: Sys, step: Step): Option<P.Step> {
    match step
    case Control(p) => Some(p)
    case Start(readable, source) => Some(P.Handle(EnvOf(s, readable, source)))
    case _ => None
  }

  ghost predicate Refines(c: Config, s: Sys, step: Step, s': Sys)
    requires WellFormed(s.m) && WellFormed(s'.m) && WellFormed(Abs(s).m)
  {
    match AbsStep(s, step)
    case Some(p) => P.Enabled(Abs(s), p) && Abs(s') == P.Next(c, Abs(s), p)
    case None => Abs(s') == Abs(s)
  }

  /** A busy softwire serves a request the present controller or an earlier one sent. */
  ghost predicate Tagged(s: Sys) {
    s.work.Busy? ==> s.work.item.inc <= s.ctl.inc && P.Matches(s.work.item.tag.op, s.work.item.req)
  }

  lemma ControlRefines(c: Config, s: Sys, p: P.Step)
    requires WellFormed(s.m) && WellFormed(Abs(s).m) && Tagged(s) && Enabled(s, Control(p))
    ensures Refines(c, s, Control(p), Next(c, s, Control(p)))
    ensures Tagged(Next(c, s, Control(p)))
  {
    P.ControlFrame(c, Raw(s), Abs(s), Leaving(s), p);
    var s' := Next(c, s, Control(p));
    assert s'.ctl.inc != s.ctl.inc ==> Leaving(s') == [] && [] + Leaving(s') == [];
    if p.RestartServer? {
      assert Leaving(s) == [] && s.resps + [] == s.resps;
    }
  }

  lemma StartRefines(c: Config, s: Sys, readable: bool, source: Reply)
    requires WellFormed(s.m) && Enabled(s, Start(readable, source))
    ensures Refines(c, s, Start(readable, source), Next(c, s, Start(readable, source)))
  {
    var s' := Next(c, s, Start(readable, source));
    assert s.resps + [] == s.resps;
    assert Abs(s) == Raw(s);
    assert s'.work.item == s.reqs[0];
  }

  lemma QuietRefines(c: Config, s: Sys, step: Step)
    requires WellFormed(s.m) && Enabled(s, step) && AbsStep(s, step).None?
    requires WellFormed(Next(c, s, step).m) && WellFormed(Abs(s).m)
    ensures Refines(c, s, step, Next(c, s, step))
  {
    var s' := Next(c, s, step);
    if step.Finish? {
      assert s'.resps + [] == s'.resps;
    }
  }

  // ---------------------------------------------------------------- the writes of a plan

  /** The moves of the control word: a pass starts from STEADY under the next epoch, is cut over
      from PRIMING, and every other write keeps the epoch. */
  predicate Move(c: Ctrl, c': Ctrl) {
    if c'.state == PRIMING then c.state == STEADY && c'.epoch == (c.epoch + 1) % 256
    else c'.epoch == c.epoch && (c'.state == DRAINING ==> c.state == PRIMING)
  }

  ghost predicate Orderly(c: Ctrl, ws: seq<Write>)
    decreases |ws|
  {
    ws != [] ==>
      if ws[0].PutCtrl? then Move(c, ws[0].c) && Orderly(ws[0].c, ws[1..]) else Orderly(c, ws[1..])
  }

  lemma {:induction false} OrderlyConcat(m: Maps, us: seq<Write>, vs: seq<Write>)
    requires |m.hops| == NUM_NEXT_HOPS && |m.pmtus| == NUM_NEXT_HOPS
    requires Orderly(m.ctrl, us) && Orderly(ApplyAll(m, us).ctrl, vs)
    ensures Orderly(m.ctrl, us + vs)
    decreases |us|
  {
    if us == [] {
      assert us + vs == vs;
    } else {
      assert (us + vs)[0] == us[0] && (us + vs)[1..] == us[1..] + vs;
      OrderlyConcat(Apply(m, us[0]), us[1..], vs);
    }
  }

  lemma OrderlyThree(c: Ctrl, a: Write, b: Write, d: Write)
    requires a.PutCtrl? ==> Move(c, a.c)
    requires b.PutCtrl? ==> Move(if a.PutCtrl? then a.c else c, b.c)
    requires d.PutCtrl? ==> Move(if b.PutCtrl? then b.c else if a.PutCtrl? then a.c else c, d.c)
    ensures Orderly(c, [a, b, d])
  {
    assert [a, b, d][1..] == [b, d] && [b, d][1..] == [d] && [d][1..] == [];
    var c1 := if a.PutCtrl? then a.c else c;
    var c2 := if b.PutCtrl? then b.c else c1;
    assert Orderly(c2, [d]);
    assert Orderly(c1, [b, d]);
  }

  /** The states a request's writes may put into the control word. */
  ghost predicate Puts(req: Request, ws: seq<Write>) {
    forall w :: w in ws && w.PutCtrl? ==>
      && (w.c.state == PRIMING ==> req.BeginReq?)
      && (w.c.state == DRAINING ==> req.CutoverReq?)
  }

  lemma SwitchOrderly(m: Maps, to: Endpoints)
    requires Sound(m)
    ensures Orderly(m.ctrl, EndingPlan(m))
    ensures SwitchPlan(m, to).Some? ==> Orderly(m.ctrl, SwitchPlan(m, to).value)
    ensures forall w :: w in EndingPlan(m) && w.PutCtrl? ==> w.c.state == STEADY
    ensures SwitchPlan(m, to).Some? ==> forall w :: w in SwitchPlan(m, to).value && w.PutCtrl? ==> w.c.state == STEADY
  {
    var ending := EndingPlan(m);
    if ending != [] {
      assert ending == [ending[0], ending[1], ending[2]];
      OrderlyThree(m.ctrl, ending[0], ending[1], ending[2]);
    }
    EndingSettles(m);
    if SwitchPlan(m, to).Some? {
      var c := ApplyAll(m, ending);
      var free := Other(c.ctrl.activeSlot);
      var ws := [ClearPmtu(free), PutHop(free, NextHop(true, to)), PutCtrl(Ctrl(free, free, STEADY, c.ctrl.epoch))];
      assert SwitchPlan(m, to).value == ending + ws;
      OrderlyThree(c.ctrl, ws[0], ws[1], ws[2]);
      OrderlyConcat(m, ending, ws);
    }
  }

  lemma ServeOrderly(sw: Sw, m: Maps, req: Request, env: Env)
    requires P.Shape(sw, m)
    ensures var ws := Serve(sw, m, req, env).writes;
            Orderly(m.ctrl, ws) && Puts(req, ws)
  {
    match req
    case RecoverReq => SwitchOrderly(m, sw.active);
    case SwitchReq(to) => SwitchOrderly(m, to);
    case BeginReq(to) => PlanOrderly(m, BeginPlan(m, to));
    case AbortReq => PlanOrderly(m, AbortPlan(m));
    case CutoverReq => PlanOrderly(m, CutoverPlan(m));
    case CompleteReq => PlanOrderly(m, CompletePlan(m));
    case _ =>
  }

  lemma PlanOrderly(m: Maps, plan: Option<seq<Write>>)
    requires WellFormed(m)
    requires (exists to :: plan == BeginPlan(m, to)) || plan == AbortPlan(m) || plan == CutoverPlan(m) || plan == CompletePlan(m)
    ensures plan.Some? ==> Orderly(m.ctrl, plan.value)
  {
    if plan.Some? {
      var ws := plan.value;
      if |ws| == 3 {
        assert ws == [ws[0], ws[1], ws[2]];
        OrderlyThree(m.ctrl, ws[0], ws[1], ws[2]);
      } else {
        assert |ws| == 1 && ws[1..] == [];
      }
    }
  }

  // ---------------------------------------------------------------- the invariant

  /** The controller waits for the request being served, or for one behind it that suits any state. */
  ghost predicate Holding(s: Sys)
    requires WellFormed(s.m)
  {
    s.work.Busy? && !P.IsSource(s.work.item) ==>
      var ops := P.Ops(s.reqs);
      && AllEnd(ops)
      && (ops == [] ==>
            && P.Mine(s.ctl, s.work.item)
            && P.FlightOf(Abs(s)).Answered? && P.FlightOf(Abs(s)).op == s.work.item.tag.op)
  }

  /** What BeginMigration and Cutover rest on until their last write. */
  ghost predicate Working(s: Sys) {
    s.work.Busy? && s.work.writes != [] ==>
      var k := s.h.k;
      && (s.work.item.req.BeginReq? ==>
            && s.m.ctrl.state == STEADY && k.base == s.flows.fails && k.read == None
            && CtrlLast(s.work.writes))
      && (s.work.item.req.CutoverReq? ==>
            && s.m.ctrl.state == PRIMING && k.read == Some(k.base) && k.left == None && Decisions.Primed(k, s.now)
            && CutsOver(s.work.writes))
  }

  ghost predicate CutsOver(ws: seq<Write>) {
    |ws| == 1 && ws[0].PutCtrl? && ws[0].c.state == DRAINING
  }

  /** Requests that leave new flows where they go. */
  predicate KeepsPlace(req: Request) {
    !req.SwitchReq? && !req.RecoverReq? && !req.CutoverReq?
  }

  /** None of the writes moves or touches the active slot. */
  ghost predicate KeepsActive(m: Maps, ws: seq<Write>) {
    forall w :: w in ws ==>
      && (w.PutCtrl? ==> w.c.activeSlot == m.ctrl.activeSlot)
      && (w.PutHop? ==> w.slot != m.ctrl.activeSlot)
  }

  ghost predicate Steadfast(s: Sys) {
    s.work.Busy? && KeepsPlace(s.work.item.req) ==>
      && s.work.sw.active == s.sw.active && KeepsActive(s.m, s.work.writes)
      && (s.work.item.req.SourceReq? ==> s.work.sw == s.sw && s.work.writes == [])
  }

  ghost predicate CtrlLast(ws: seq<Write>) {
    forall i :: 0 <= i < |ws| - 1 ==> !ws[i].PutCtrl?
  }

  ghost predicate BusyInv(s: Sys)
    requires WellFormed(s.m)
  {
    && Tagged(s) && Careful(s.m, Pending(s)) && Orderly(s.m.ctrl, Pending(s))
    && (s.work.Busy? ==> Puts(s.work.item.req, s.work.writes))
    && Holding(s) && Working(s) && Steadfast(s)
  }

  /** The table against the unbounded count of passes. */
  ghost predicate Stamped(c: Ctrl, t: Table, h: History) {
    && h.stamp.Keys == t.Keys
    && c.epoch == h.gen % 256 && h.gcGen <= h.gen
    && (forall f :: f in t ==> t[f].epoch == h.stamp[f] % 256 && h.stamp[f] <= h.gen)
    && (!h.overrun ==> h.gen - h.gcGen <= 255 && forall f :: f in h.stamp ==> h.gcGen <= h.stamp[f])
  }

  /** The recording of the pass under way, and what the last collection of a drain found. */
  ghost predicate Gated(c: Ctrl, f: Flows, h: History) {
    && (c.state == PRIMING ==> f.fails >= h.k.base && (f.fails == h.k.base ==> h.seen <= Current(c, f.table)))
    && (c.state == PRIMING && h.k.read == Some(h.k.base) ==> h.counted.Some? && h.counted.value <= Current(c, f.table))
    && (c.state == DRAINING && h.k.left == Some(0) ==> Current(c, f.table) == {})
  }

  ghost predicate Inv(s: Sys) {
    && WellFormed(s.m) && BusyInv(s)
    && P.Inv(Abs(s)) && Grounded(Abs(s), s.h.k)
    && Stamped(s.m.ctrl, s.flows.table, s.h) && Gated(s.m.ctrl, s.flows, s.h)
  }

  lemma InitInv(s: Sys, ends: Endpoints)
    requires Init(s, ends)
    ensures Inv(s)
  {
    P.InitInv(Raw(s), ends);
    assert s.resps + [] == s.resps;
    assert Abs(s) == Raw(s);
  }

  // Packets.

  /** The choice of a slot and the refreshing of a flow leave the table the same. */
  lemma SameFlows(c: Ctrl, f: Flows, key: FlowKey, now: nat, room: bool)
    ensures Pick(c, f, key, now, room).flows == FlowAffinity.Refresh(c, f, key, now, room)
  {
  }

  lemma KeepPacket(s: Sys, key: FlowKey, room: bool)
    requires Inv(s)
    ensures Inv(Handled(s, key, FlowAffinity.Refresh(s.m.ctrl, s.flows, key, s.now, room)))
  {
    var flows := FlowAffinity.Refresh(s.m.ctrl, s.flows, key, s.now, room);
    var s' := Handled(s, key, flows);
    PickedSlot(s.m.ctrl, s.flows, key, s.now, room);
    SameFlows(s.m.ctrl, s.flows, key, s.now, room);
    assert Abs(s') == Abs(s);
    PacketTable(s.m.ctrl, s.flows, key, s.now, room, s.h, s'.h);
  }

  lemma PacketTable(c: Ctrl, f: Flows, key: FlowKey, now: nat, room: bool, h: History, h': History)
    requires Stamped(c, f.table, h) && Gated(c, f, h)
    requires c.state <= DRAINING && (c.state == DRAINING ==> c.activeSlot != c.oldSlot)
    requires var f' := FlowAffinity.Refresh(c, f, key, now, room);
             h' == if c.state != PRIMING then h
                   else h.(seen := h.seen + {key}, stamp := if f'.fails == f.fails then h.stamp[key := h.gen] else h.stamp)
    ensures var f' := FlowAffinity.Refresh(c, f, key, now, room);
            Stamped(c, f'.table, h') && Gated(c, f', h')
  {
    PickedSlot(c, f, key, now, room);
    SameFlows(c, f, key, now, room);
  }

  // The softwire.

  /** The table and the record after a request is taken. */
  function TakenFlows(f: Flows, c: Ctrl, now: nat, req: Request, readable: bool): Flows {
    if req.GcReq? && readable then f.(table := Collect(c, f.table, now, FLOW_IDLE)) else f
  }

  function TakenHistory(h: History, f: Flows, c: Ctrl, now: nat, req: Request, rep: Reply, readable: bool): History {
    var h' := h.(k := Learned(h.k, req, rep));
    if req.GcReq? && readable then
      h'.(gcGen := h.gen, stamp := map key | key in h.stamp && key in Collect(c, f.table, now, FLOW_IDLE) :: h.stamp[key])
    else if req.CountsReq? && readable then h'.(counted := Some(h.seen))
    else h'
  }

  /** The softwire takes the first request. */
  ghost predicate Started(s: Sys, s': Sys, env: Env)
    requires WellFormed(s.m)
  {
    && s.work == Idle && s.reqs != []
    && env.counts == Counts(s.flows.inserts, s.flows.fails)
    && env.remaining == |Collect(s.m.ctrl, s.flows.table, s.now, FLOW_IDLE)|
    && var it := s.reqs[0];
       var r := Serve(s.sw, s.m, it.req, env);
       s' == s.(reqs := s.reqs[1..], work := Busy(it, r.writes, r.sw, r.rep), lost := LostAfter(s, it, r.rep),
                flows := TakenFlows(s.flows, s.m.ctrl, s.now, it.req, env.readable),
                h := TakenHistory(s.h, s.flows, s.m.ctrl, s.now, it.req, r.rep, env.readable))
  }

  lemma StartIsStarted(c: Config, s: Sys, readable: bool, source: Reply)
    requires WellFormed(s.m) && Enabled(s, Start(readable, source))
    ensures Started(s, Next(c, s, Start(readable, source)), EnvOf(s, readable, source))
  {
  }

  lemma KeepStart(c: Config, s: Sys, readable: bool, source: Reply)
    requires Inv(s) && Enabled(s, Start(readable, source))
    ensures Inv(Next(c, s, Start(readable, source)))
  {
    var env := EnvOf(s, readable, source);
    var s' := Next(c, s, Start(readable, source));
    StartIsStarted(c, s, readable, source);
    StartAbs(c, s, s', env);
    AbsIdle(s);
    StartTable(s, s', env);
  }

  lemma AbsIdle(s: Sys)
    requires WellFormed(s.m) && s.work == Idle
    ensures Abs(s) == Raw(s)
  {
    assert s.resps + [] == s.resps;
  }

  lemma StartAbs(c: Config, s: Sys, s': Sys, env: Env)
    requires Inv(s) && Started(s, s', env)
    ensures BusyInv(s') && P.Inv(Abs(s')) && Grounded(Abs(s'), s'.h.k)
  {
    AbsIdle(s);
    StartedRefines(c, s, s', env);
    P.InvStep(c, Raw(s), P.Handle(env));
    GroundedHandle(c, Raw(s), s.h.k, env);
    StartBusy(s, s', env);
  }

  lemma StartedRefines(c: Config, s: Sys, s': Sys, env: Env)
    requires WellFormed(s.m) && Started(s, s', env)
    ensures Abs(s') == P.Next(c, Raw(s), P.Handle(env))
  {
  }

  /** The writes of the request taken. */
  lemma StartWrites(s: Sys, s': Sys, env: Env)
    requires WellFormed(s.m) && Started(s, s', env) && P.Shape(s.sw, s.m) && P.Tagged(s.reqs, s.ctl)
    ensures Tagged(s') && Careful(s'.m, Pending(s')) && Orderly(s'.m.ctrl, Pending(s'))
    ensures Puts(s'.work.item.req, s'.work.writes) && Steadfast(s')
  {
    var it := s.reqs[0];
    assert it in s.reqs;
    P.ServeKeepsShape(s.sw, s.m, it.req, env);
    ServeOrderly(s.sw, s.m, it.req, env);
    if KeepsPlace(it.req) {
      ServeKeepsPlace(s.sw, s.m, it.req, env);
    }
  }

  lemma StartHolding(s: Sys, s': Sys, env: Env)
    requires WellFormed(s.m) && Started(s, s', env) && P.Queues(Raw(s))
    ensures Holding(s')
  {
    var it := s.reqs[0];
    if !P.IsSource(it) {
      StartWorkingQueue(Raw(s), Abs(s'), it, Serve(s.sw, s.m, it.req, env).rep);
    }
  }

  lemma StartBusy(s: Sys, s': Sys, env: Env)
    requires Inv(s) && Started(s, s', env)
    ensures BusyInv(s')
  {
    AbsIdle(s);
    StartWrites(s, s', env);
    StartHolding(s, s', env);
    StartWorking(s, s', env);
  }

  lemma StartWorking(s: Sys, s': Sys, env: Env)
    requires WellFormed(s.m) && Started(s, s', env) && P.Queues(Raw(s)) && Decisions.Front(Raw(s), s.h.k)
    ensures Working(s')
  {
    if s'.work.writes != [] {
      StartWorkingFront(s, env);
    }
  }

  lemma ServeKeepsPlace(sw: Sw, m: Maps, req: Request, env: Env)
    requires P.Shape(sw, m) && KeepsPlace(req)
    ensures var r := Serve(sw, m, req, env);
            r.sw.active == sw.active && KeepsActive(m, r.writes)
  {
    CompleteOutcome(m);
  }

  lemma StartWorkingQueue(p: P.State, p': P.State, it: P.Item, rep: Reply)
    requires P.Queues(p) && p.reqs != [] && p.reqs[0] == it && !P.IsSource(it)
    requires p'.ctl == p.ctl && p'.reqs == p.reqs[1..]
    requires p'.resps == p.resps + (if it.inc == p.ctl.inc then [P.Answer(it.tag, rep)] else [])
    ensures var ops := P.Ops(p'.reqs);
            && AllEnd(ops)
            && (ops == [] ==> P.Mine(p.ctl, it) && P.FlightOf(p').Answered? && P.FlightOf(p').op == it.tag.op)
  {
    P.HandleQueues(p, p', P.Answer(it.tag, rep));
    var ops := P.Ops(p.reqs);
    assert ops == [it] + P.Ops(p'.reqs);
    assert forall i :: 0 <= i < |P.Ops(p'.reqs)| ==> P.Ops(p'.reqs)[i] == ops[i + 1];
  }

  /** What BeginMigration and Cutover find when they are taken. */
  lemma StartWorkingFront(s: Sys, env: Env)
    requires WellFormed(s.m) && s.work == Idle && s.reqs != [] && env.counts == Counts(s.flows.inserts, s.flows.fails)
    requires P.Queues(Raw(s)) && Decisions.Front(Raw(s), s.h.k)
    requires var it := s.reqs[0]; Serve(s.sw, s.m, it.req, env).writes != []
    ensures var it := s.reqs[0];
            var k := Learned(s.h.k, it.req, Serve(s.sw, s.m, it.req, env).rep);
            var ws := Serve(s.sw, s.m, it.req, env).writes;
            && (it.req.BeginReq? ==>
                  s.m.ctrl.state == STEADY && k.base == s.flows.fails && k.read == None && CtrlLast(ws))
            && (it.req.CutoverReq? ==>
                  && s.m.ctrl.state == PRIMING && k.read == Some(k.base) && k.left == None && Decisions.Primed(k, s.now)
                  && CutsOver(ws))
  {
    assert s.reqs[0] in s.reqs;
    if s.reqs[0].req.CutoverReq? {
      assert P.Ops(s.reqs)[0] == s.reqs[0];
    }
  }

  lemma StartTable(s: Sys, s': Sys, env: Env)
    requires WellFormed(s.m) && Started(s, s', env) && P.Queues(Raw(s))
    requires Stamped(s.m.ctrl, s.flows.table, s.h) && Gated(s.m.ctrl, s.flows, s.h)
    ensures Stamped(s'.m.ctrl, s'.flows.table, s'.h) && Gated(s'.m.ctrl, s'.flows, s'.h)
  {
    var it := s.reqs[0];
    assert it in s.reqs;
    if !P.IsSource(it) {
      assert P.Ops(s.reqs)[0] == it;
    }
    TakenTable(s.m.ctrl, s.flows, s.h, s.now, it.req, Serve(s.sw, s.m, it.req, env).rep, env);
  }

  lemma TakenTable(c: Ctrl, f: Flows, h: History, now: nat, req: Request, rep: Reply, env: Env)
    requires Stamped(c, f.table, h) && Gated(c, f, h) && P.InOrder(req, c.state, true)
    requires req.BeginReq? && rep.ok ==> c.state == STEADY
    requires req.CountsReq? ==>
               rep == if env.readable then CountsRep(Counts(f.inserts, f.fails), true) else CountsRep(Counts(0, 0), false)
    requires req.GcReq? ==> rep == if env.readable then GcRep(|Collect(c, f.table, now, FLOW_IDLE)|, true) else GcRep(0, false)
    ensures var f' := TakenFlows(f, c, now, req, env.readable);
            var h' := TakenHistory(h, f, c, now, req, rep, env.readable);
            Stamped(c, f'.table, h') && Gated(c, f', h')
  {
    if req.GcReq? && env.readable {
      CollectedTable(c, f.table, now, h);
    }
  }

  /** A collection while draining leaves entries of this pass only. */
  lemma CollectedTable(c: Ctrl, t: Table, now: nat, h: History)
    requires Stamped(c, t, h)
    ensures var t' := Collect(c, t, now, FLOW_IDLE);
            var h' := h.(gcGen := h.gen, stamp := map f | f in h.stamp && f in t' :: h.stamp[f]);
            Stamped(c, t', h') && Current(c, t') == t'.Keys
  {
    var t' := Collect(c, t, now, FLOW_IDLE);
    forall f | f in t' && !h.overrun
      ensures h.stamp[f] == h.gen
    {
      assert t[f].epoch == c.epoch;
      SameEpoch(h.stamp[f], h.gen);
    }
  }

  /** Two passes less than 256 apart with the same epoch are the same pass. */
  lemma SameEpoch(a: nat, b: nat)
    requires a <= b <= a + 255 && a % 256 == b % 256
    ensures a == b
  {
  }

  /** One write is made. */
  ghost predicate Written(s: Sys, s': Sys, w: Write)
    requires WellFormed(s.m)
  {
    && s.work.Busy? && s.work.writes != [] && s.work.writes[0] == w
    && s' == s.(m := Apply(s.m, w), work := s.work.(writes := s.work.writes[1..]), h := Recorded(s, w))
  }

  lemma KeepWrite(c: Config, s: Sys)
    requires Inv(s) && Enabled(s, WriteOne)
    ensures Inv(Next(c, s, WriteOne))
  {
    var s' := Next(c, s, WriteOne);
    var w := s.work.writes[0];
    assert Written(s, s', w);
    WriteSame(s, s', w);
    WriteWorking(s, s', w);
    WriteTable(s, s', w);
    WriteGrounds(s, s', w);
  }

  lemma WriteSame(s: Sys, s': Sys, w: Write)
    requires WellFormed(s.m) && Written(s, s', w) && Careful(s.m, Pending(s)) && Orderly(s.m.ctrl, Pending(s))
    requires Puts(s.work.item.req, s.work.writes) && Tagged(s)
    ensures WellFormed(s'.m) && Abs(s') == Abs(s)
    ensures Careful(s'.m, Pending(s')) && Orderly(s'.m.ctrl, Pending(s'))
    ensures Puts(s'.work.item.req, s'.work.writes) && Tagged(s')
  {
    CarefulTail(s.m, s.work.writes);
    assert forall v :: v in s'.work.writes ==> v in s.work.writes;
  }

  lemma WriteWorking(s: Sys, s': Sys, w: Write)
    requires Inv(s) && Written(s, s', w) && WellFormed(s'.m) && Abs(s') == Abs(s)
    ensures Holding(s') && Working(s') && Steadfast(s')
  {
    assert w in s.work.writes;
    assert forall v :: v in s'.work.writes ==> v in s.work.writes;
    assert forall i :: 0 <= i < |s'.work.writes| ==> s'.work.writes[i] == s.work.writes[i + 1];
  }

  lemma WriteGrounds(s: Sys, s': Sys, w: Write)
    requires Inv(s) && Written(s, s', w) && WellFormed(s'.m) && Abs(s') == Abs(s)
    ensures Grounded(Abs(s'), s'.h.k)
  {
    assert w in s.work.writes;
    if s'.h.k != s.h.k {
      HeldBegins(Abs(s), s.h.k, s'.h.k);
    }
  }

  lemma WriteTable(s: Sys, s': Sys, w: Write)
    requires WellFormed(s.m) && Written(s, s', w) && Stamped(s.m.ctrl, s.flows.table, s.h) && Gated(s.m.ctrl, s.flows, s.h)
    requires Orderly(s.m.ctrl, s.work.writes) && Puts(s.work.item.req, s.work.writes) && Working(s)
    ensures Stamped(s'.m.ctrl, s'.flows.table, s'.h) && Gated(s'.m.ctrl, s'.flows, s'.h)
  {
    assert w in s.work.writes;
  }

  lemma KeepFinish(c: Config, s: Sys)
    requires Inv(s) && Enabled(s, Finish)
    ensures Inv(Next(c, s, Finish))
  {
    var s' := Next(c, s, Finish);
    assert s'.resps + [] == s'.resps;
    assert Abs(s') == Abs(s);
  }

  // The controller.

  lemma ControlBusy(c: Config, s: Sys, p: P.Step)
    requires Inv(s) && Enabled(s, Control(p))
    ensures BusyInv(Next(c, s, Control(p)))
  {
    ControlRefines(c, s, p);
    ControlClock(c, s, p);
    if s.work.Busy? && !P.IsSource(s.work.item) {
      ControlWorking(c, s, p);
    }
  }

  lemma KeepControl(c: Config, s: Sys, p: P.Step)
    requires Inv(s) && Enabled(s, Control(p))
    ensures Inv(Next(c, s, Control(p)))
  {
    ControlRefines(c, s, p);
    P.InvStep(c, Abs(s), p);
    GroundedControl(c, Abs(s), s.h.k, p);
    ControlBusy(c, s, p);
  }

  lemma ControlClock(c: Config, s: Sys, p: P.Step)
    requires WellFormed(s.m) && Enabled(s, Control(p))
    ensures Next(c, s, Control(p)).now >= s.now
  {
  }

  lemma ControlWorking(c: Config, s: Sys, p: P.Step)
    requires Inv(s) && Enabled(s, Control(p)) && s.work.Busy? && !P.IsSource(s.work.item)
    ensures var s' := Next(c, s, Control(p));
            && WellFormed(Abs(s').m)
            && AllEnd(P.Ops(s'.reqs))
            && (P.Ops(s'.reqs) == [] ==> P.Ops(s.reqs) == [] && StillHeld(Abs(s), Abs(s')))
  {
    ControlRefines(c, s, p);
    if p.Deliver? {
      NotYetDelivered(s);
    }
    HeldControl(c, Abs(s), p);
  }

  /** The live answer is still on its way out of the softwire. */
  lemma NotYetDelivered(s: Sys)
    requires Inv(s) && s.work.Busy? && !P.IsSource(s.work.item) && s.resps != []
    ensures var a := Abs(s).resps[0];
            a == s.resps[0] && (a.tag.gen != s.ctl.data.gen || a.tag.op == OpSource)
  {
    var gen := s.ctl.data.gen;
    if P.Ops(s.reqs) == [] {
      P.LiveAppend(s.resps, P.Answer(s.work.item.tag, s.work.rep), gen);
    }
  }

  // ---------------------------------------------------------------- whole runs

  lemma InvStep(c: Config, s: Sys, step: Step)
    requires Inv(s) && Enabled(s, step)
    ensures Inv(Next(c, s, step))
  {
    match step
    case Control(p) => KeepControl(c, s, p);
    case Start(readable, source) => KeepStart(c, s, readable, source);
    case WriteOne => KeepWrite(c, s);
    case Finish => KeepFinish(c, s);
    case Encap(inner, room) =>
      var key := BuildFlowKey(inner, false);
      SameFlows(s.m.ctrl, s.flows, key, s.now, room);
      KeepPacket(s, key, room);
    case Decap(inner, room) =>
      KeepPacket(s, BuildFlowKey(inner, true), room);
  }
}
