/** The controller of the softwire endpoints: a pure state machine from a phase, its data and an
    event to the next phase, data and effects. */
module Controlling {
  import opened Wrappers
  import opened Addresses

  // ---------------------------------------------------------------- durations, in nanoseconds

  const SECOND := 1_000_000_000
  const PRIMING_DURATION := 60 * SECOND
  const DRAIN_INTERVAL := 30 * SECOND
  const MAX_DRAIN_DURATION := 7200 * SECOND
  const SWITCH_RETRY := 300 * SECOND
  const B4_POLL_INTERVAL := 30 * SECOND

  // ---------------------------------------------------------------- state

  datatype Phase = Recovering | Steady | Discovering | Priming | Draining | Switching

  datatype Discovery = Discovery(aftr: Addr, refresh: int, token: string)

  const NO_DISCOVERY := Discovery(NoAddr, 0, "")

  datatype Counts = Counts(inserts: nat, fails: nat)

  datatype Data = Data(
    current: Discovery,
    b4: Addr,
    wait: int,
    gen: nat,
    next: Discovery,
    migration: nat,
    baseline: Counts,
    recorded: int,
    capReached: bool,
    abortWhy: string,
    switchB4: Addr,
    switchTo: Discovery)

  const ZERO_DATA := Data(NO_DISCOVERY, NoAddr, 0, 0, NO_DISCOVERY, 0, Counts(0, 0), 0, false, "", NoAddr, NO_DISCOVERY)

  /** The controller's configuration. */
  datatype Config = Config(dynamicAftr: bool, dynamicB4: bool, initial: Discovery)

  // ---------------------------------------------------------------- messages

  datatype Op =
    | OpRecover | OpSource | OpSwitch | OpBegin | OpCounts
    | OpAbort | OpCutover | OpGc | OpComplete

  datatype Tag = Tag(op: Op, gen: nat)

  datatype Request =
    | RecoverReq
    | SourceReq(aftr: Addr)
    | SwitchReq(to: Endpoints)
    | BeginReq(to: Endpoints)
    | CountsReq
    | AbortReq
    | CutoverReq
    | GcReq
    | CompleteReq

  /** `ok` is false for a reply carrying an error, or for none because the server died. */
  datatype Reply =
    | Recovered(ends: Endpoints, ok: bool)
    | SourceRep(addr: Addr, found: bool, ok: bool)
    | CountsRep(counts: Counts, ok: bool)
    | GcRep(remaining: nat, ok: bool)
    | DoneRep(ok: bool)

  /** The outcome of a discovery attempt. */
  datatype DiscoverRep = DiscoverRep(disc: Discovery, ok: bool, retryIn: int)

  datatype Msg = Refresh | Primed | DrainTick | B4Poll | DrainCap(migration: nat)

  datatype Timer = B4PollTimer | DrainCapTimer

  datatype Event =
    | Enter
    | StateTimeout(msg: Msg)
    | Timeout(msg: Msg)
    | AsyncResult(disc: DiscoverRep)
    | Response(tag: Tag, rep: Reply)

  datatype Effect =
    | Send(req: Request, tag: Tag)
    | Discover(token: string)
    | CancelDiscover
    | StartStateTimeout(after: int, msg: Msg)
    | StartTimeout(timer: Timer, after: int, msg: Msg)
    | CancelTimeout(timer: Timer)
    | Postpone
    | Stop

  datatype Turn = Turn(phase: Phase, data: Data, effs: seq<Effect>)

  // ---------------------------------------------------------------- decisions

  /** nextRefreshWait: a wait that is never a busy loop. */
  function NextRefreshWait(refresh: int): (wait: int)
    ensures wait > 0 && (wait == refresh || (refresh <= 0 && wait == SWITCH_RETRY))
  {
    if refresh <= 0 then SWITCH_RETRY else refresh
  }

  /** nextB4: the B4 to move to, if the queried source is a change worth acting on. */
  function NextB4(current: Addr, queried: Addr, found: bool): Option<Addr> {
    if !found || !UsableB4(queried) || queried == current then None else Some(queried)
  }

  function SendTo(op: Op, gen: nat, req: Request): Effect {
    Send(req, Tag(op, gen))
  }

  function HandleEvent(c: Config, st: Phase, d: Data, ev: Event): Turn {
    match ev
    case Enter => EnterPhase(c, st, d)
    case StateTimeout(Refresh) => Turn(Discovering, d, [Discover(d.current.token)])
    case StateTimeout(Primed) => Turn(st, d, [SendTo(OpCounts, d.gen, CountsReq)])
    case StateTimeout(DrainTick) => Turn(st, d, [SendTo(OpGc, d.gen, GcReq)])
    case StateTimeout(_) => Turn(st, d, [])
    case Timeout(B4Poll) =>
      if st == Switching then Turn(st, d, [Postpone])
      else Turn(st, d, [SendTo(OpSource, d.gen, SourceReq(d.current.aftr)),
                        StartTimeout(B4PollTimer, B4_POLL_INTERVAL, B4Poll)])
    case Timeout(DrainCap(m)) => Turn(st, if m == d.migration then d.(capReached := true) else d, [])
    case Timeout(_) => Turn(st, d, [])
    case AsyncResult(disc) => Discovered(st, d, disc)
    case Response(tag, rep) => if tag.gen != d.gen then Turn(st, d, []) else Respond(c, st, d, tag.op, rep)
  }

  function EnterPhase(c: Config, st: Phase, d: Data): Turn {
    if st == Steady && c.dynamicAftr then
      Turn(st, d, [StartStateTimeout(d.wait, Refresh)])
    else if st == Draining then
      Turn(st, d.(capReached := false),
           [StartStateTimeout(DRAIN_INTERVAL, DrainTick),
            StartTimeout(DrainCapTimer, MAX_DRAIN_DURATION, DrainCap(d.migration))])
    else
      Turn(st, d, [])
  }

  /** The outcome of a discovery: nothing new, or a migration to begin. */
  function Discovered(st: Phase, d: Data, r: DiscoverRep): Turn {
    if !r.ok then
      Turn(Steady, d.(current := d.current.(refresh := r.retryIn), wait := NextRefreshWait(r.retryIn)), [])
    else if r.disc.aftr == d.current.aftr then
      Turn(Steady, d.(current := r.disc, wait := NextRefreshWait(r.disc.refresh)), [])
    else
      Turn(Priming, d.(next := r.disc, migration := d.migration + 1),
           [SendTo(OpBegin, d.gen, BeginReq(Endpoints(d.b4, r.disc.aftr)))])
  }

  /** The response to the request named by `op`. A reply of another type reads as its zero value. */
  function Respond(c: Config, st: Phase, d: Data, op: Op, rep: Reply): Turn {
    match op
    case OpRecover =>
      var r := if rep.Recovered? then rep else Recovered(Endpoints(NoAddr, NoAddr), rep.ok);
      if !r.ok then Turn(st, d, [Stop]) else OnRecovered(c, d, r.ends)

    case OpSource =>
      var r := if rep.SourceRep? then rep else SourceRep(NoAddr, false, rep.ok);
      if !r.ok then Turn(st, d, [])
      else
        (match NextB4(d.b4, r.addr, r.found)
         case None => Turn(st, d, [])
         case Some(b4) => HardSwitch(st, d, b4))

    case OpSwitch =>
      if !rep.ok then Turn(Steady, d.(wait := SWITCH_RETRY), [])
      else Turn(Steady, d.(b4 := d.switchB4, current := d.switchTo, wait := 0), [])

    case OpBegin =>
      if !rep.ok then MigrationFailed(d)
      else
        var counts := if rep.CountsRep? then rep.counts else Counts(0, 0);
        Turn(st, d.(baseline := counts), [StartStateTimeout(PRIMING_DURATION, Primed)])

    case OpCounts =>
      if !rep.ok then Abort(d, "reading datapath stats")
      else
        var counts := if rep.CountsRep? then rep.counts else Counts(0, 0);
        if counts.fails != d.baseline.fails then Abort(d, "")
        else Turn(st, d.(recorded := counts.inserts - d.baseline.inserts), [SendTo(OpCutover, d.gen, CutoverReq)])

    case OpCutover =>
      if !rep.ok then Abort(d, "cutting over") else Turn(Draining, d, [])

    case OpAbort =>
      if !rep.ok then MigrationFailed(d)
      else if d.abortWhy == "" then Turn(Steady, d.(wait := SWITCH_RETRY), [])
      else MigrationFailed(d)

    case OpGc =>
      var r := if rep.GcRep? then rep else GcRep(0, rep.ok);
      if !r.ok || (r.remaining > 0 && !d.capReached) then
        Turn(st, d, [StartStateTimeout(DRAIN_INTERVAL, DrainTick)])
      else
        Turn(st, d, [SendTo(OpComplete, d.gen, CompleteReq)])

    case OpComplete =>
      if !rep.ok then Turn(st, d, [StartStateTimeout(DRAIN_INTERVAL, DrainTick)])
      else
        Turn(Steady, d.(current := d.next, next := NO_DISCOVERY, wait := NextRefreshWait(d.next.refresh)),
             [CancelTimeout(DrainCapTimer)])
  }

  /** recovered: start on the endpoints the softwire carries. */
  function OnRecovered(c: Config, d: Data, ends: Endpoints): Turn {
    var d' :=
      if ends.aftr == c.initial.aftr
      then d.(b4 := ends.b4, current := c.initial, wait := NextRefreshWait(c.initial.refresh))
      else d.(b4 := ends.b4, current := Discovery(ends.aftr, 0, ""), wait := 0);
    Turn(Steady, d', if c.dynamicB4 then [StartTimeout(B4PollTimer, B4_POLL_INTERVAL, B4Poll)] else [])
  }

  /** hardSwitch: whatever was in flight is dropped, by raising the generation. */
  function HardSwitch(st: Phase, d: Data, b4: Addr): Turn {
    var to := if st == Draining then d.next else d.current;
    Turn(Switching,
         d.(gen := d.gen + 1, switchB4 := b4, switchTo := to, next := NO_DISCOVERY),
         (if st == Discovering then [CancelDiscover] else [])
         + [SendTo(OpSwitch, d.gen + 1, SwitchReq(Endpoints(b4, to.aftr)))])
  }

  function Abort(d: Data, why: string): Turn {
    Turn(Priming, d.(abortWhy := why), [SendTo(OpAbort, d.gen, AbortReq)])
  }

  function MigrationFailed(d: Data): Turn {
    Turn(Steady, d.(next := NO_DISCOVERY, wait := SWITCH_RETRY), [])
  }
}
