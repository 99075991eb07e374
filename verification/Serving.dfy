/** The softwire server: where the controller's requests meet the datapath. */
module Serving {
  import opened Addresses
  import opened Datapath
  import opened FlowAffinity
  import opened Controlling
  import opened Loading

  /** How long a pinned flow may go silent before the drain lets go of it. */
  const FLOW_IDLE := IdleTimeouts(1800 * SECOND, 300 * SECOND)

  /** The softwire's own state, which outlives the processes serving it. */
  datatype Sw = Sw(active: Endpoints, target: Endpoints, migrating: bool)

  /** What a request meets outside the softwire: whether the maps and counters can be read (an
      operation that cannot read changes nothing), the kernel's answer to a source query, the
      affinity counters, and how many flows a collection leaves. */
  datatype Env = Env(readable: bool, source: Reply, counts: Counts, remaining: nat)

  datatype Served = Served(sw: Sw, writes: seq<Write>, rep: Reply)

  /** Softwire.handle, as the writes it makes and the reply it gives. */
  function Serve(sw: Sw, m: Maps, req: Request, env: Env): Served
    requires WellFormed(m)
  {
    match req
    case RecoverReq =>
      if !sw.migrating then Served(sw, [], Recovered(sw.active, true))
      else
        var ws := SwitchWrites(m, sw.active, env.readable);
        if !Switches(m, sw.active, env.readable) then Served(sw, ws, Recovered(Endpoints(NoAddr, NoAddr), false))
        else Served(sw.(migrating := false), ws, Recovered(sw.active, true))
    case SourceReq(_) =>
      Served(sw, [], env.source)
    case SwitchReq(to) =>
      var ws := SwitchWrites(m, to, env.readable);
      if !Switches(m, to, env.readable) then Served(sw, ws, DoneRep(false))
      else Served(sw.(active := to, migrating := false), ws, DoneRep(true))
    case BeginReq(to) =>
      if !env.readable || BeginPlan(m, to).None? then Served(sw, [], CountsRep(Counts(0, 0), false))
      else Served(sw.(target := to, migrating := true), BeginPlan(m, to).value, CountsRep(env.counts, true))
    case CountsReq =>
      Served(sw, [], if env.readable then CountsRep(env.counts, true) else CountsRep(Counts(0, 0), false))
    case AbortReq =>
      if !env.readable || AbortPlan(m).None? then Served(sw, [], DoneRep(false))
      else Served(sw.(migrating := false), AbortPlan(m).value, DoneRep(true))
    case CutoverReq =>
      if !env.readable || CutoverPlan(m).None? then Served(sw, [], DoneRep(false))
      else Served(sw.(active := sw.target), CutoverPlan(m).value, DoneRep(true))
    case GcReq =>
      Served(sw, [], if env.readable then GcRep(env.remaining, true) else GcRep(0, false))
    case CompleteReq =>
      if !env.readable || CompletePlan(m).None? then Served(sw, [], DoneRep(false))
      else Served(sw.(migrating := false), CompletePlan(m).value, DoneRep(true))
  }

  predicate Switches(m: Maps, to: Endpoints, readable: bool)
    requires WellFormed(m)
  {
    readable && SwitchPlan(m, to).Some?
  }

  function SwitchWrites(m: Maps, to: Endpoints, readable: bool): seq<Write>
    requires WellFormed(m)
  {
    if Switches(m, to, readable) then SwitchPlan(m, to).value
    else if readable && ValidEndpoints(to) then EndingPlan(m)
    else []
  }

  class Softwire {
    const dp: Loader
    var active: Endpoints
    var target: Endpoints
    var migrating: bool

    ghost function Value(): Sw
      reads this
    {
      Sw(active, target, migrating)
    }

    constructor (dp: Loader, active: Endpoints)
      ensures this.dp == dp
      ensures Value() == Sw(active, Endpoints(NoAddr, NoAddr), false)
    {
      this.dp := dp;
      this.active := active;
      target := Endpoints(NoAddr, NoAddr);
      migrating := false;
    }

    /** handle: serves one request to the end, and answers it. */
    method Handle(req: Request, readable: bool, source: Reply, now: nat) returns (rep: Reply)
      requires dp.Valid() && source.SourceRep?
      modifies this, dp
      ensures dp.Valid()
      ensures var flows := if req.GcReq? && readable
                           then old(dp.flows).(table := Collect(old(dp.View()).ctrl, old(dp.flows.table), now, FLOW_IDLE))
                           else old(dp.flows);
              var env := Env(readable, source, Counts(old(dp.flows.inserts), old(dp.flows.fails)), |flows.table|);
              var s := Serve(old(Value()), old(dp.View()), req, env);
              && dp.flows == flows
              && rep == s.rep && Value() == s.sw
              && dp.log == old(dp.log) + s.writes
              && dp.View() == ApplyAll(old(dp.View()), s.writes)
    {
      match req {
        case RecoverReq =>
          if migrating {
            if !readable {
              return Recovered(Endpoints(NoAddr, NoAddr), false);
            }
            var ok := dp.SwitchAFTR(active);
            if !ok {
              return Recovered(Endpoints(NoAddr, NoAddr), false);
            }
            migrating := false;
          }
          return Recovered(active, true);
        case SourceReq(_) =>
          return source;
        case SwitchReq(to) =>
          if !readable {
            return DoneRep(false);
          }
          var ok := dp.SwitchAFTR(to);
          if !ok {
            return DoneRep(false);
          }
          active, migrating := to, false;
          return DoneRep(true);
        case BeginReq(to) =>
          if !readable {
            return CountsRep(Counts(0, 0), false);
          }
          var counts := Counts(dp.flows.inserts, dp.flows.fails);
          var ok := dp.BeginMigration(to);
          if !ok {
            return CountsRep(Counts(0, 0), false);
          }
          target, migrating := to, true;
          return CountsRep(counts, true);
        case CountsReq =>
          if !readable {
            return CountsRep(Counts(0, 0), false);
          }
          return CountsRep(Counts(dp.flows.inserts, dp.flows.fails), true);
        case AbortReq =>
          if !readable {
            return DoneRep(false);
          }
          var ok := dp.AbortMigration();
          if !ok {
            return DoneRep(false);
          }
          migrating := false;
          return DoneRep(true);
        case CutoverReq =>
          if !readable {
            return DoneRep(false);
          }
          var ok := dp.Cutover();
          if !ok {
            return DoneRep(false);
          }
          active := target;
          return DoneRep(true);
        case GcReq =>
          if !readable {
            return GcRep(0, false);
          }
          var n := dp.GCFlowAffinity(FLOW_IDLE, now);
          return GcRep(n, true);
        case CompleteReq =>
          if !readable {
            return DoneRep(false);
          }
          var ok := dp.CompleteMigration();
          if !ok {
            return DoneRep(false);
          }
          migrating := false;
          return DoneRep(true);
      }
    }
  }
}
