/** The loader over the datapath maps, and the per-packet programs that share them. Each method is
    proved to make exactly the writes of its plan, in that order. */
module Loading {
  import opened Addresses
  import opened Datapath
  import opened FlowAffinity
  import PathMtu

  class Loader {
    var word: U32
    var hops: seq<NextHop>
    var pmtus: seq<Reading>
    var flows: Flows
    /** Every map write made, oldest first. */
    ghost var log: seq<Write>

    ghost function View(): Maps
      reads this
    {
      Maps(Unpack(word), hops, pmtus)
    }

    ghost predicate Valid()
      reads this
    {
      WellFormed(View())
    }

    /** `ws` is what was written since, and the maps are what it makes of them. */
    twostate predicate Wrote(ws: seq<Write>)
      requires |old(hops)| == NUM_NEXT_HOPS && |old(pmtus)| == NUM_NEXT_HOPS
      reads this
    {
      log == old(log) + ws && View() == ApplyAll(old(View()), ws) && flows == old(flows)
    }

    /** The maps as the kernel creates them: all zero. */
    constructor ()
      ensures Valid() && log == [] && flows == Flows(map[], 0, 0)
      ensures View() == Maps(Ctrl(0, 0, STEADY, 0), [CLEARED, CLEARED], [NOTHING_LEARNED, NOTHING_LEARNED])
    {
      word := 0;
      hops := [CLEARED, CLEARED];
      pmtus := [NOTHING_LEARNED, NOTHING_LEARNED];
      flows := Flows(map[], 0, 0);
      log := [];
    }

    method WriteCtrl(c: Ctrl)
      requires Valid() && WellFormedWrite(PutCtrl(c))
      modifies this
      ensures Valid() && Wrote([PutCtrl(c)])
    {
      UnpackPack(c);
      word := Pack(c);
      log := log + [PutCtrl(c)];
      ApplyOne(old(View()), PutCtrl(c));
    }

    method PutNextHop(slot: Slot, nh: NextHop)
      requires Valid()
      modifies this
      ensures Valid() && Wrote([PutHop(slot, nh)])
    {
      hops := hops[slot := nh];
      log := log + [PutHop(slot, nh)];
      ApplyOne(old(View()), PutHop(slot, nh));
    }

    method ClearTunnelPMTU(slot: Slot)
      requires Valid()
      modifies this
      ensures Valid() && Wrote([ClearPmtu(slot)])
    {
      pmtus := pmtus[slot := NOTHING_LEARNED];
      log := log + [ClearPmtu(slot)];
      ApplyOne(old(View()), ClearPmtu(slot));
    }

    method WriteNextHop(slot: Slot, to: Endpoints) returns (ok: bool)
      requires Valid()
      modifies this
      ensures Valid()
      ensures ok <==> NextHopPlan(old(View()), slot, to).Some?
      ensures Wrote(if ok then NextHopPlan(old(View()), slot, to).value else [])
    {
      var c := Unpack(word);
      var resolvable := slot == c.activeSlot || (c.state == DRAINING && slot == c.oldSlot);
      if resolvable && hops[slot].valid {
        return false;
      }
      ClearTunnelPMTU(slot);
      PutNextHop(slot, NextHop(true, to));
      ApplyAllConcat(old(View()), [ClearPmtu(slot)], [PutHop(slot, NextHop(true, to))]);
      assert [ClearPmtu(slot)] + [PutHop(slot, NextHop(true, to))] == [ClearPmtu(slot), PutHop(slot, NextHop(true, to))];
      return true;
    }

    method ClearNextHop(slot: Slot)
      requires Valid()
      modifies this
      ensures Valid() && Wrote([PutHop(slot, CLEARED), ClearPmtu(slot)])
    {
      PutNextHop(slot, CLEARED);
      ClearTunnelPMTU(slot);
      ApplyAllConcat(old(View()), [PutHop(slot, CLEARED)], [ClearPmtu(slot)]);
      assert [PutHop(slot, CLEARED)] + [ClearPmtu(slot)] == [PutHop(slot, CLEARED), ClearPmtu(slot)];
    }

    /** The slot part of SetB4Config, the startup path. */
    method SetB4Config(to: Endpoints) returns (ok: bool)
      requires Valid()
      modifies this
      ensures Valid()
      ensures ok <==> StartupPlan(old(View()), to).Some?
      ensures Wrote(if ok then StartupPlan(old(View()), to).value else [])
    {
      if !IsSoftwireAddr(to.b4) || !IsSoftwireAddr(to.aftr) {
        return false;
      }
      ok := WriteNextHop(0, to);
      if !ok {
        return;
      }
      ghost var ws := NextHopPlan(old(View()), 0, to).value;
      WriteCtrl(Ctrl(0, 0, STEADY, 0));
      ApplyAllConcat(old(View()), ws, [PutCtrl(Ctrl(0, 0, STEADY, 0))]);
    }

    method BeginMigration(to: Endpoints) returns (ok: bool)
      requires Valid()
      modifies this
      ensures Valid()
      ensures ok <==> BeginPlan(old(View()), to).Some?
      ensures Wrote(if ok then BeginPlan(old(View()), to).value else [])
    {
      if !IsSoftwireAddr(to.b4) || !IsSoftwireAddr(to.aftr) {
        return false;
      }
      var c := Unpack(word);
      if c.state != STEADY {
        return false;
      }
      var newSlot := (c.activeSlot + 1) % NUM_NEXT_HOPS;
      ok := WriteNextHop(newSlot, to);
      if !ok {
        return;
      }
      ghost var first := NextHopPlan(old(View()), newSlot, to).value;
      var next := Ctrl(c.activeSlot, c.activeSlot, PRIMING, (c.epoch + 1) % 256);
      WriteCtrl(next);
      ApplyAllConcat(old(View()), first, [PutCtrl(next)]);
    }

    method Cutover() returns (ok: bool)
      requires Valid()
      modifies this
      ensures Valid()
      ensures ok <==> CutoverPlan(old(View())).Some?
      ensures Wrote(if ok then CutoverPlan(old(View())).value else [])
    {
      var c := Unpack(word);
      if c.state != PRIMING {
        return false;
      }
      var oldSlot := c.activeSlot;
      var newSlot := (oldSlot + 1) % NUM_NEXT_HOPS;
      WriteCtrl(Ctrl(newSlot, oldSlot, DRAINING, c.epoch));
      return true;
    }

    method CompleteMigration() returns (ok: bool)
      requires Valid()
      modifies this
      ensures Valid()
      ensures ok <==> CompletePlan(old(View())).Some?
      ensures Wrote(if ok then CompletePlan(old(View())).value else [])
    {
      var c := Unpack(word);
      if c.state != DRAINING {
        return false;
      }
      var next := Ctrl(c.activeSlot, c.activeSlot, STEADY, c.epoch);
      WriteCtrl(next);
      ClearNextHop(c.oldSlot);
      ApplyAllConcat(old(View()), [PutCtrl(next)], [PutHop(c.oldSlot, CLEARED), ClearPmtu(c.oldSlot)]);
      assert [PutCtrl(next)] + [PutHop(c.oldSlot, CLEARED), ClearPmtu(c.oldSlot)] == CompletePlan(old(View())).value;
      return true;
    }

    method AbortMigration() returns (ok: bool)
      requires Valid()
      modifies this
      ensures Valid()
      ensures ok <==> AbortPlan(old(View())).Some?
      ensures Wrote(if ok then AbortPlan(old(View())).value else [])
    {
      var c := Unpack(word);
      if c.state != PRIMING {
        return false;
      }
      var next := Ctrl(c.activeSlot, c.activeSlot, STEADY, c.epoch);
      var slot := (c.activeSlot + 1) % NUM_NEXT_HOPS;
      WriteCtrl(next);
      ClearNextHop(slot);
      ApplyAllConcat(old(View()), [PutCtrl(next)], [PutHop(slot, CLEARED), ClearPmtu(slot)]);
      assert [PutCtrl(next)] + [PutHop(slot, CLEARED), ClearPmtu(slot)] == AbortPlan(old(View())).value;
      return true;
    }

    /** The first part of SwitchAFTR: an unfinished migration is aborted or completed. */
    method EndMigration()
      requires Valid()
      modifies this
      ensures Valid() && Wrote(EndingPlan(old(View())))
    {
      var c := Unpack(word);
      if c.state == PRIMING {
        var _ := AbortMigration();
      } else if c.state == DRAINING {
        var _ := CompleteMigration();
      }
    }

    /** SwitchAFTR. A refusal after the migration was ended leaves it ended. */
    method SwitchAFTR(to: Endpoints) returns (ok: bool)
      requires Valid()
      modifies this
      ensures Valid()
      ensures ok <==> SwitchPlan(old(View()), to).Some?
      ensures ok ==> Wrote(SwitchPlan(old(View()), to).value)
      ensures !ok ==> Wrote(if ValidEndpoints(to) then EndingPlan(old(View())) else [])
    {
      if !IsSoftwireAddr(to.b4) || !IsSoftwireAddr(to.aftr) {
        return false;
      }
      EndMigration();
      ghost var ending := EndingPlan(old(View()));
      EndingSettles(old(View()));
      var c := Unpack(word);
      var free := (c.activeSlot + 1) % NUM_NEXT_HOPS;
      ghost var settled := View();
      ok := WriteNextHop(free, to);
      if !ok {
        assert ending + [] == ending;
        return;
      }
      ghost var first := NextHopPlan(settled, free, to).value;
      ApplyAllConcat(old(View()), ending, first);
      var next := Ctrl(free, free, STEADY, c.epoch);
      WriteCtrl(next);
      ApplyAllConcat(old(View()), ending + first, [PutCtrl(next)]);
    }

    /** learn_tunnel_pmtu, for a slot that was found. */
    method LearnTunnelPMTU(slot: Slot, reported: nat, now: nat)
      requires Valid()
      modifies this`pmtus
      ensures Valid() && pmtus == old(pmtus)[slot := PathMtu.Learn(old(pmtus)[slot], reported, now)]
    {
      var mtu := reported;
      if mtu < PathMtu.IPV6_MIN_MTU {
        mtu := PathMtu.IPV6_MIN_MTU;
      }
      var e := pmtus[slot];
      if e.updated != 0 && mtu >= e.mtu && e.updated <= now && now - e.updated < PathMtu.EXPIRY {
        return;
      }
      pmtus := pmtus[slot := Reading(mtu, now)];
    }

    /** touch_flow_affinity, under a control word the caller loaded once. */
    method TouchFlowAffinity(c: Ctrl, key: FlowKey, now: nat, room: bool) returns (hit: bool)
      modifies this`flows
      ensures Touched(flows, hit) == Touch(c, old(flows), key, now, room)
    {
      if key in flows.table {
        var fa := flows.table[key];
        if c.state == PRIMING {
          fa := fa.(epoch := c.epoch);
          flows := flows.(table := flows.table[key := fa]);
        }
        if fa.epoch != c.epoch {
          return false;
        }
        flows := flows.(table := flows.table[key := fa.(lastSeen := now)]);
        assert flows.table == old(flows.table)[key := Affinity(now, c.epoch)];
        return true;
      }
      if c.state != PRIMING {
        return false;
      }
      if !room {
        flows := flows.(fails := flows.fails + 1);
        return false;
      }
      flows := flows.(table := flows.table[key := Affinity(now, c.epoch)], inserts := flows.inserts + 1);
      return false;
    }

    /** pick_softwire_slot: the control word is loaded exactly once. */
    method PickSoftwireSlot(h: Inner, now: nat, room: bool) returns (slot: nat)
      modifies this`flows
      ensures Picked(flows, slot) == Pick(View().ctrl, old(flows), BuildFlowKey(h, false), now, room)
    {
      var c := Unpack(word);
      slot := c.activeSlot;
      if c.state == STEADY {
        return;
      }
      var hit := TouchFlowAffinity(c, BuildFlowKey(h, false), now, room);
      if c.state == DRAINING && hit {
        slot := c.oldSlot;
      }
    }

    /** The iteration of GCFlowAffinity: what is to go, and how many stay. */
    method StaleFlows(c: Ctrl, timeouts: IdleTimeouts, now: nat) returns (stale: seq<FlowKey>, remaining: nat)
      ensures forall k :: k in stale <==> k in flows.table && !Kept(c, k, flows.table[k], now, timeouts)
      ensures remaining == |Collect(c, flows.table, now, timeouts)|
    {
      var expireCurrentEpoch := c.state != PRIMING;
      stale, remaining := [], 0;
      var left := flows.table.Keys;
      ghost var kept: set<FlowKey> := {};
      while left != {}
        invariant left <= flows.table.Keys
        invariant forall k :: k in stale <==> k in flows.table && k !in left && !Kept(c, k, flows.table[k], now, timeouts)
        invariant forall k :: k in kept <==> k in flows.table && k !in left && Kept(c, k, flows.table[k], now, timeouts)
        invariant remaining == |kept|
        decreases |left|
      {
        var key :| key in left;
        var val := flows.table[key];
        left := left - {key};
        if val.epoch != c.epoch {
          stale := stale + [key];
          continue;
        }
        if expireCurrentEpoch {
          var idle := timeouts.other;
          if key.proto == PROTO_TCP {
            idle := timeouts.tcp;
          }
          if now - val.lastSeen > idle {
            stale := stale + [key];
            continue;
          }
        }
        remaining := remaining + 1;
        kept := kept + {key};
      }
      assert Collect(c, flows.table, now, timeouts).Keys == kept;
    }

    method DeleteFlows(stale: seq<FlowKey>)
      modifies this`flows
      ensures flows == old(flows).(table := map k | k in old(flows.table) && k !in stale :: old(flows.table)[k])
    {
      var i := 0;
      while i < |stale|
        invariant 0 <= i <= |stale|
        invariant flows == old(flows).(table := flows.table)
        invariant flows.table == map k | k in old(flows.table) && k !in stale[..i] :: old(flows.table)[k]
      {
        flows := flows.(table := map k | k in flows.table && k != stale[i] :: flows.table[k]);
        i := i + 1;
      }
      assert stale[..i] == stale;
    }

    /** GCFlowAffinity: collects while iterating, deletes afterwards. */
    method GCFlowAffinity(timeouts: IdleTimeouts, now: nat) returns (remaining: nat)
      modifies this`flows
      ensures flows == old(flows).(table := Collect(View().ctrl, old(flows.table), now, timeouts))
      ensures remaining == |flows.table|
    {
      var c := Unpack(word);
      var stale;
      stale, remaining := StaleFlows(c, timeouts, now);
      DeleteFlows(stale);
      assert flows.table == Collect(c, old(flows.table), now, timeouts);
    }
  }

  lemma ApplyOne(m: Maps, w: Write)
    requires |m.hops| == NUM_NEXT_HOPS && |m.pmtus| == NUM_NEXT_HOPS
    ensures ApplyAll(m, [w]) == Apply(m, w)
  {
    assert [w][1..] == [];
  }
}
