/** How the 8-bit epoch comes to mistake one pass for another: migrations begun and rolled back over and
    over, with no drain between them to collect the table. */
module EpochWrap {
  import opened Addresses
  import opened Datapath
  import opened FlowAffinity

  /** A state a migration to `to` can begin from. */
  ghost predicate Ready(m: Maps, to: Endpoints) {
    Sound(m) && m.ctrl.state == STEADY && ValidEndpoints(to)
  }

  /** BeginMigration */
  ghost function Begun(m: Maps, to: Endpoints): (r: Maps)
    requires Ready(m, to)
    ensures Sound(r) && r.hops[Other(m.ctrl.activeSlot)].valid
    ensures r.ctrl == Ctrl(m.ctrl.activeSlot, m.ctrl.activeSlot, PRIMING, (m.ctrl.epoch + 1) % 256)
  {
    BeginOutcome(m, to);
    ApplyAll(m, BeginPlan(m, to).value)
  }

  /** BeginMigration, then AbortMigration. */
  ghost function Pass(m: Maps, to: Endpoints): (r: Maps)
    requires Ready(m, to)
    ensures Ready(r, to) && r.ctrl == Ctrl(m.ctrl.activeSlot, m.ctrl.activeSlot, STEADY, (m.ctrl.epoch + 1) % 256)
  {
    var b := Begun(m, to);
    AbortOutcome(b);
    ApplyAll(b, AbortPlan(b).value)
  }

  ghost function Passes(m: Maps, to: Endpoints, n: nat): (r: Maps)
    requires Ready(m, to)
    ensures Ready(r, to) && r.ctrl.activeSlot == m.ctrl.activeSlot && r.ctrl.epoch == (m.ctrl.epoch + n) % 256
  {
    if n == 0 then m else Pass(Passes(m, to, n - 1), to)
  }

  /** BeginMigration, then Cutover. */
  ghost function CutOver(m: Maps, to: Endpoints): (r: Maps)
    requires Ready(m, to)
    ensures Sound(r)
    ensures r.ctrl == Ctrl(Other(m.ctrl.activeSlot), m.ctrl.activeSlot, DRAINING, (m.ctrl.epoch + 1) % 256)
  {
    var b := Begun(m, to);
    CutoverOutcome(b);
    ApplyAll(b, CutoverPlan(b).value)
  }

  /** A flow recorded in one pass and silent since: after `n` more passes rolled back, the drain of the
      next migration takes it for one of its own, and sends it by the old slot, exactly when `n + 1` is a
      multiple of 256. */
  lemma EpochWraps(m: Maps, to: Endpoints, f: FlowKey, flows: Flows, now: nat, n: nat, later: nat, room: bool)
    requires Ready(m, to) && f !in flows.table
    ensures var recorded := Pick(Begun(m, to).ctrl, flows, f, now, true).flows;
            var d := CutOver(Passes(Pass(m, to), to, n), to).ctrl;
            && f in recorded.table && d.state == DRAINING && d.oldSlot != d.activeSlot
            && (Pick(d, recorded, f, later, room).slot == d.oldSlot <==> (n + 1) % 256 == 0)
  {
    var e := m.ctrl.epoch;
    var recorded := Pick(Begun(m, to).ctrl, flows, f, now, true).flows;
    var d := CutOver(Passes(Pass(m, to), to, n), to).ctrl;
    assert recorded.table[f].epoch == (e + 1) % 256;
    Same(e, n);
  }

  lemma Same(e: nat, n: nat)
    ensures ((((e + 1) % 256 + n) % 256 + 1) % 256 == (e + 1) % 256) <==> (n + 1) % 256 == 0
  {
  }

  /** 255 passes rolled back suffice: a flow not recorded in this migration leaves by its old slot. */
  lemma StrangerIsPinned(m: Maps, to: Endpoints, f: FlowKey, flows: Flows, now: nat)
    requires Ready(m, to) && f !in flows.table
    ensures var recorded := Pick(Begun(m, to).ctrl, flows, f, now, true).flows;
            var d := CutOver(Passes(Pass(m, to), to, 255), to).ctrl;
            Pick(d, recorded, f, now, true).slot == d.oldSlot != d.activeSlot
  {
    EpochWraps(m, to, f, flows, now, 255, now, true);
  }
}
