/** The datapath maps the control plane writes: the packed migration control word, the two
    next-hop slots and their learned path MTUs. Every loader operation is a plan, the sequence of
    single map writes it makes; packets run between any two of them. */
module Datapath {
  import opened Wrappers
  import opened Addresses

  const STEADY := 0
  const PRIMING := 1
  const DRAINING := 2

  const NUM_NEXT_HOPS := 2

  type Slot = s: int | 0 <= s < NUM_NEXT_HOPS

  // ---------------------------------------------------------------- the control word

  /** The unpacked control word. Each field is one byte of the packed form. */
  datatype Ctrl = Ctrl(activeSlot: nat, oldSlot: nat, state: nat, epoch: nat)

  function Pack(c: Ctrl): (v: U32) {
    c.activeSlot % 256 + c.oldSlot % 256 * 0x100 + c.state % 256 * 0x1_0000 + c.epoch % 256 * 0x100_0000
  }

  function Unpack(v: U32): (c: Ctrl) {
    Ctrl(v % 256, v / 0x100 % 256, v / 0x1_0000 % 256, v / 0x100_0000 % 256)
  }

  ghost predicate Bytes(c: Ctrl) {
    c.activeSlot < 256 && c.oldSlot < 256 && c.state < 256 && c.epoch < 256
  }

  /** A control word reads back as it was written exactly when every field fits its byte. */
  lemma UnpackPack(c: Ctrl)
    ensures Unpack(Pack(c)) == c <==> Bytes(c)
  {
    var a, o, s, e := c.activeSlot % 256, c.oldSlot % 256, c.state % 256, c.epoch % 256;
    BytesOf(a, o, s, e);
    assert Unpack(Pack(c)) == Ctrl(a, o, s, e);
  }

  lemma BytesOf(a: nat, o: nat, s: nat, e: nat)
    requires a < 256 && o < 256 && s < 256 && e < 256
    ensures var v := a + o * 0x100 + s * 0x1_0000 + e * 0x100_0000;
            v % 256 == a && v / 0x100 % 256 == o && v / 0x1_0000 % 256 == s && v / 0x100_0000 % 256 == e
  {
  }

  lemma PackUnpack(v: U32)
    ensures Bytes(Unpack(v)) && Pack(Unpack(v)) == v
  {
    var q1 := v / 0x100;
    var q2 := q1 / 256;
    var q3 := q2 / 256;
    assert v == v % 256 + 0x100 * (q1 % 256) + 0x1_0000 * (q2 % 256) + 0x100_0000 * q3;
    assert v / 0x1_0000 == q2 && v / 0x100_0000 == q3 && q3 < 256;
  }

  // ---------------------------------------------------------------- the maps

  datatype NextHop = NextHop(valid: bool, ends: Endpoints)

  const CLEARED := NextHop(false, Endpoints(NoAddr, NoAddr))

  /** A learned softwire path MTU; `updated == 0` means nothing learned. */
  datatype Reading = Reading(mtu: nat, updated: nat)

  const NOTHING_LEARNED := Reading(0, 0)

  datatype Maps = Maps(ctrl: Ctrl, hops: seq<NextHop>, pmtus: seq<Reading>)

  datatype Write =
    | PutCtrl(c: Ctrl)
    | PutHop(slot: Slot, nh: NextHop)
    | ClearPmtu(slot: Slot)

  /** Shape of the array maps, and a control word naming existing slots. */
  ghost predicate WellFormed(m: Maps) {
    && |m.hops| == NUM_NEXT_HOPS && |m.pmtus| == NUM_NEXT_HOPS
    && m.ctrl.activeSlot < NUM_NEXT_HOPS && m.ctrl.oldSlot < NUM_NEXT_HOPS
    && m.ctrl.state <= DRAINING && m.ctrl.epoch < 256
  }

  ghost predicate WellFormedWrite(w: Write) {
    w.PutCtrl? ==> w.c.activeSlot < NUM_NEXT_HOPS && w.c.oldSlot < NUM_NEXT_HOPS && w.c.state <= DRAINING && w.c.epoch < 256
  }

  function Apply(m: Maps, w: Write): (r: Maps)
    requires |m.hops| == NUM_NEXT_HOPS && |m.pmtus| == NUM_NEXT_HOPS
    ensures |r.hops| == NUM_NEXT_HOPS && |r.pmtus| == NUM_NEXT_HOPS
  {
    match w
    case PutCtrl(c) => m.(ctrl := c)
    case PutHop(slot, nh) => m.(hops := m.hops[slot := nh])
    case ClearPmtu(slot) => m.(pmtus := m.pmtus[slot := NOTHING_LEARNED])
  }

  function ApplyAll(m: Maps, ws: seq<Write>): (r: Maps)
    requires |m.hops| == NUM_NEXT_HOPS && |m.pmtus| == NUM_NEXT_HOPS
    ensures |r.hops| == NUM_NEXT_HOPS && |r.pmtus| == NUM_NEXT_HOPS
    decreases |ws|
  {
    if ws == [] then m else ApplyAll(Apply(m, ws[0]), ws[1..])
  }

  lemma {:induction false} ApplyAllConcat(m: Maps, us: seq<Write>, vs: seq<Write>)
    requires |m.hops| == NUM_NEXT_HOPS && |m.pmtus| == NUM_NEXT_HOPS
    ensures ApplyAll(m, us + vs) == ApplyAll(ApplyAll(m, us), vs)
    decreases |us|
  {
    if us == [] {
      assert us + vs == vs;
    } else {
      assert (us + vs)[1..] == us[1..] + vs;
      ApplyAllConcat(Apply(m, us[0]), us[1..], vs);
    }
  }

  // ---------------------------------------------------------------- what packets can resolve

  /** The slots encap may resolve under the control word: the active one, and while draining the
      one the recorded flows are pinned to. */
  predicate Resolvable(m: Maps, slot: int) {
    slot == m.ctrl.activeSlot || (m.ctrl.state == DRAINING && slot == m.ctrl.oldSlot)
  }

  /** slotIsLive: resolvable, and valid. */
  predicate SlotIsLive(m: Maps, slot: Slot)
    requires |m.hops| == NUM_NEXT_HOPS
  {
    Resolvable(m, slot) && m.hops[slot].valid
  }

  /** The state packets may meet at any time after startup. */
  ghost predicate Sound(m: Maps) {
    && WellFormed(m)
    && m.hops[m.ctrl.activeSlot].valid
    && (m.ctrl.state == DRAINING ==> m.ctrl.oldSlot != m.ctrl.activeSlot && m.hops[m.ctrl.oldSlot].valid)
  }

  /** A write no packet in flight can be reading: it leaves resolvable slots alone. */
  ghost predicate Harmless(m: Maps, w: Write) {
    match w
    case PutCtrl(_) => true
    case PutHop(slot, _) => !Resolvable(m, slot)
    case ClearPmtu(slot) => !Resolvable(m, slot)
  }

  /** Every write of the plan is harmless where it is made, and every state in between is sound. */
  ghost predicate Careful(m: Maps, ws: seq<Write>)
    decreases |ws|
  {
    && Sound(m)
    && (ws != [] ==> Harmless(m, ws[0]) && Careful(Apply(m, ws[0]), ws[1..]))
  }

  lemma CarefulTail(m: Maps, ws: seq<Write>)
    requires Careful(m, ws) && ws != []
    ensures Harmless(m, ws[0]) && Sound(Apply(m, ws[0])) && Careful(Apply(m, ws[0]), ws[1..])
  {
  }

  // ---------------------------------------------------------------- the plans

  function Other(slot: nat): Slot {
    (slot + 1) % NUM_NEXT_HOPS
  }

  /** writeNextHop: refuses a live slot; forgets the path MTU learned there, then puts the pair. */
  function NextHopPlan(m: Maps, slot: Slot, to: Endpoints): Option<seq<Write>>
    requires WellFormed(m)
  {
    if SlotIsLive(m, slot) then None
    else Some([ClearPmtu(slot), PutHop(slot, NextHop(true, to))])
  }

  /** SetB4Config, the slot part of it: startup on one pair. */
  function StartupPlan(m: Maps, to: Endpoints): (r: Option<seq<Write>>)
    requires WellFormed(m)
  {
    if !ValidEndpoints(to) then None
    else
      match NextHopPlan(m, 0, to)
      case None => None
      case Some(ws) => Some(ws + [PutCtrl(Ctrl(0, 0, STEADY, 0))])
  }

  /** BeginMigration */
  function BeginPlan(m: Maps, to: Endpoints): (r: Option<seq<Write>>)
    requires WellFormed(m)
  {
    if !ValidEndpoints(to) || m.ctrl.state != STEADY then None
    else
      match NextHopPlan(m, Other(m.ctrl.activeSlot), to)
      case None => None
      case Some(ws) =>
        Some(ws + [PutCtrl(Ctrl(m.ctrl.activeSlot, m.ctrl.activeSlot, PRIMING, (m.ctrl.epoch + 1) % 256))])
  }

  /** Cutover */
  function CutoverPlan(m: Maps): (r: Option<seq<Write>>)
    requires WellFormed(m)
  {
    if m.ctrl.state != PRIMING then None
    else Some([PutCtrl(Ctrl(Other(m.ctrl.activeSlot), m.ctrl.activeSlot, DRAINING, m.ctrl.epoch))])
  }

  /** CompleteMigration: control word first, slot second. */
  function CompletePlan(m: Maps): (r: Option<seq<Write>>)
    requires WellFormed(m)
  {
    if m.ctrl.state != DRAINING then None
    else Some([PutCtrl(Ctrl(m.ctrl.activeSlot, m.ctrl.activeSlot, STEADY, m.ctrl.epoch)),
               PutHop(m.ctrl.oldSlot, CLEARED), ClearPmtu(m.ctrl.oldSlot)])
  }

  /** AbortMigration */
  function AbortPlan(m: Maps): (r: Option<seq<Write>>)
    requires WellFormed(m)
  {
    if m.ctrl.state != PRIMING then None
    else Some([PutCtrl(Ctrl(m.ctrl.activeSlot, m.ctrl.activeSlot, STEADY, m.ctrl.epoch)),
               PutHop(Other(m.ctrl.activeSlot), CLEARED), ClearPmtu(Other(m.ctrl.activeSlot))])
  }

  /** The migration SwitchAFTR ends first, in whatever state it is. */
  function EndingPlan(m: Maps): (r: seq<Write>)
    requires WellFormed(m)
    ensures m.ctrl.state == STEADY <==> r == []
  {
    if m.ctrl.state == PRIMING then AbortPlan(m).value
    else if m.ctrl.state == DRAINING then CompletePlan(m).value
    else []
  }

  /** SwitchAFTR */
  function SwitchPlan(m: Maps, to: Endpoints): (r: Option<seq<Write>>)
    requires WellFormed(m)
  {
    if !ValidEndpoints(to) then None
    else
      var ending := EndingPlan(m);
      EndingSettles(m);
      var c := ApplyAll(m, ending);
      var free := Other(c.ctrl.activeSlot);
      match NextHopPlan(c, free, to)
      case None => None
      case Some(ws) => Some(ending + ws + [PutCtrl(Ctrl(free, free, STEADY, c.ctrl.epoch))])
  }

  // ---------------------------------------------------------------- what the plans come to

  lemma ApplyThree(m: Maps, a: Write, b: Write, c: Write)
    requires |m.hops| == NUM_NEXT_HOPS && |m.pmtus| == NUM_NEXT_HOPS
    ensures ApplyAll(m, [a, b, c]) == Apply(Apply(Apply(m, a), b), c)
  {
    assert [a, b, c][1..] == [b, c] && [b, c][1..] == [c] && [c][1..] == [];
    var m3 := Apply(Apply(Apply(m, a), b), c);
    assert ApplyAll(m3, []) == m3;
    assert ApplyAll(Apply(Apply(m, a), b), [c]) == m3;
    assert ApplyAll(Apply(m, a), [b, c]) == m3;
  }

  lemma CarefulThree(m: Maps, a: Write, b: Write, c: Write)
    requires Sound(m)
    requires Harmless(m, a) && Sound(Apply(m, a))
    requires Harmless(Apply(m, a), b) && Sound(Apply(Apply(m, a), b))
    requires Harmless(Apply(Apply(m, a), b), c) && Sound(Apply(Apply(Apply(m, a), b), c))
    ensures Careful(m, [a, b, c])
  {
    assert [a, b, c][1..] == [b, c] && [b, c][1..] == [c] && [c][1..] == [];
    assert Careful(Apply(Apply(Apply(m, a), b), c), []);
    assert Careful(Apply(Apply(m, a), b), [c]);
    assert Careful(Apply(m, a), [b, c]);
  }

  lemma {:induction false} CarefulConcat(m: Maps, us: seq<Write>, vs: seq<Write>)
    requires Careful(m, us) && Careful(ApplyAll(m, us), vs)
    ensures Careful(m, us + vs)
    decreases |us|
  {
    if us == [] {
      assert us + vs == vs;
    } else {
      assert (us + vs)[1..] == us[1..] + vs;
      CarefulConcat(Apply(m, us[0]), us[1..], vs);
    }
  }

  lemma EndingSettles(m: Maps)
    requires WellFormed(m)
    ensures var r := ApplyAll(m, EndingPlan(m));
            WellFormed(r) && r.ctrl.state == STEADY && r.ctrl.activeSlot == m.ctrl.activeSlot && r.ctrl.epoch == m.ctrl.epoch
    ensures m.ctrl.state == STEADY ==> ApplyAll(m, EndingPlan(m)) == m
  {
    if m.ctrl.state != STEADY {
      var ws := EndingPlan(m);
      assert ws == [ws[0], ws[1], ws[2]];
      ApplyThree(m, ws[0], ws[1], ws[2]);
    }
  }

  /** Startup goes through with valid endpoints unless slot 0 is live, and leaves traffic on them. */
  lemma StartupOutcome(m: Maps, to: Endpoints)
    requires WellFormed(m)
    ensures StartupPlan(m, to).Some? <==> ValidEndpoints(to) && !SlotIsLive(m, 0)
    ensures StartupPlan(m, to).Some? ==>
              var r := ApplyAll(m, StartupPlan(m, to).value);
              && Sound(r) && r.ctrl == Ctrl(0, 0, STEADY, 0) && r.hops == m.hops[0 := NextHop(true, to)]
  {
    if StartupPlan(m, to).Some? {
      var ws := StartupPlan(m, to).value;
      assert ws == [ws[0], ws[1], ws[2]];
      ApplyThree(m, ws[0], ws[1], ws[2]);
    }
  }

  /** BeginMigration goes through exactly from STEADY with valid endpoints; it prepares the other
      slot and leaves traffic where it is. */
  lemma BeginOutcome(m: Maps, to: Endpoints)
    requires Sound(m)
    ensures BeginPlan(m, to).Some? <==> ValidEndpoints(to) && m.ctrl.state == STEADY
    ensures BeginPlan(m, to).Some? ==>
              var r := ApplyAll(m, BeginPlan(m, to).value);
              && Careful(m, BeginPlan(m, to).value) && Sound(r)
              && r.ctrl == Ctrl(m.ctrl.activeSlot, m.ctrl.activeSlot, PRIMING, (m.ctrl.epoch + 1) % 256)
              && r.hops == m.hops[Other(m.ctrl.activeSlot) := NextHop(true, to)]
  {
    if BeginPlan(m, to).Some? {
      var ws := BeginPlan(m, to).value;
      assert ws == [ws[0], ws[1], ws[2]];
      ApplyThree(m, ws[0], ws[1], ws[2]);
      CarefulThree(m, ws[0], ws[1], ws[2]);
    }
  }

  /** Cutover goes through exactly from PRIMING on a prepared slot, in one write. */
  lemma CutoverOutcome(m: Maps)
    requires Sound(m)
    ensures CutoverPlan(m).Some? <==> m.ctrl.state == PRIMING
    ensures CutoverPlan(m).Some? && m.hops[Other(m.ctrl.activeSlot)].valid ==>
              var r := ApplyAll(m, CutoverPlan(m).value);
              && Careful(m, CutoverPlan(m).value) && Sound(r)
              && r == m.(ctrl := Ctrl(Other(m.ctrl.activeSlot), m.ctrl.activeSlot, DRAINING, m.ctrl.epoch))
  {
    if CutoverPlan(m).Some? && m.hops[Other(m.ctrl.activeSlot)].valid {
      var w := CutoverPlan(m).value[0];
      assert CutoverPlan(m).value == [w] && [w][1..] == [];
      assert Careful(Apply(m, w), []);
    }
  }

  /** CompleteMigration goes through exactly from DRAINING; it keeps the active endpoints and
      retires the other slot. */
  lemma CompleteOutcome(m: Maps)
    requires Sound(m)
    ensures CompletePlan(m).Some? <==> m.ctrl.state == DRAINING
    ensures CompletePlan(m).Some? ==>
              var r := ApplyAll(m, CompletePlan(m).value);
              && Careful(m, CompletePlan(m).value) && Sound(r)
              && r.ctrl == Ctrl(m.ctrl.activeSlot, m.ctrl.activeSlot, STEADY, m.ctrl.epoch)
              && r.hops == m.hops[Other(m.ctrl.activeSlot) := CLEARED]
  {
    if CompletePlan(m).Some? {
      var ws := CompletePlan(m).value;
      ApplyThree(m, ws[0], ws[1], ws[2]);
      CarefulThree(m, ws[0], ws[1], ws[2]);
    }
  }

  /** AbortMigration goes through exactly from PRIMING; traffic never moved. */
  lemma AbortOutcome(m: Maps)
    requires Sound(m)
    ensures AbortPlan(m).Some? <==> m.ctrl.state == PRIMING
    ensures AbortPlan(m).Some? ==>
              var r := ApplyAll(m, AbortPlan(m).value);
              && Careful(m, AbortPlan(m).value) && Sound(r)
              && r.ctrl == Ctrl(m.ctrl.activeSlot, m.ctrl.activeSlot, STEADY, m.ctrl.epoch)
              && r.hops == m.hops[Other(m.ctrl.activeSlot) := CLEARED]
  {
    if AbortPlan(m).Some? {
      var ws := AbortPlan(m).value;
      ApplyThree(m, ws[0], ws[1], ws[2]);
      CarefulThree(m, ws[0], ws[1], ws[2]);
    }
  }

  /** SwitchAFTR goes through from every state with valid endpoints, and lands on them in STEADY.
      The slot it takes is never one a packet can resolve, whatever migration it cut short. */
  lemma SwitchOutcome(m: Maps, to: Endpoints)
    requires Sound(m)
    ensures SwitchPlan(m, to).Some? <==> ValidEndpoints(to)
    ensures SwitchPlan(m, to).Some? ==>
              var r := ApplyAll(m, SwitchPlan(m, to).value);
              && Careful(m, SwitchPlan(m, to).value) && Sound(r)
              && r.ctrl == Ctrl(Other(m.ctrl.activeSlot), Other(m.ctrl.activeSlot), STEADY, m.ctrl.epoch)
              && r.hops[r.ctrl.activeSlot] == NextHop(true, to)
  {
    EndingSettles(m);
    CompleteOutcome(m);
    AbortOutcome(m);
    var ending := EndingPlan(m);
    var c := ApplyAll(m, ending);
    assert Careful(m, ending) && Sound(c);
    if SwitchPlan(m, to).Some? {
      var free := Other(c.ctrl.activeSlot);
      var ws := [ClearPmtu(free), PutHop(free, NextHop(true, to)), PutCtrl(Ctrl(free, free, STEADY, c.ctrl.epoch))];
      assert SwitchPlan(m, to).value == ending + ws;
      ApplyThree(c, ws[0], ws[1], ws[2]);
      CarefulThree(c, ws[0], ws[1], ws[2]);
      ApplyAllConcat(m, ending, ws);
      CarefulConcat(m, ending, ws);
    }
  }
}
