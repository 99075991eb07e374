/** Flow affinity: which softwire slot a packet takes while a migration is under way. */
module FlowAffinity {
  import opened Wrappers
  import opened Addresses
  import opened Datapath

  const PROTO_TCP := 6
  const PROTO_UDP := 17

  /** Always in the forward (LAN to Internet) orientation. */
  datatype FlowKey = FlowKey(src: U32, dst: U32, sport: nat, dport: nat, proto: nat)

  /** An inner IPv4 header; `ports` is what follows it, if the frame reaches that far.
      `fragOff` is the flags-and-offset field in host order. */
  datatype Inner = Inner(src: U32, dst: U32, proto: nat, ihl: nat, fragOff: nat, ports: Option<Ports>)

  datatype Ports = Ports(sport: nat, dport: nat)

  predicate Fragmented(h: Inner) {
    h.fragOff % 0x4000 != 0
  }

  /** Ports count only for unfragmented TCP and UDP. */
  function KeyPorts(h: Inner): Ports {
    if !Fragmented(h) && h.ihl == 5 && (h.proto == PROTO_TCP || h.proto == PROTO_UDP) && h.ports.Some?
    then h.ports.value
    else Ports(0, 0)
  }

  /** build_flow_key */
  function BuildFlowKey(h: Inner, reverse: bool): FlowKey {
    var p := KeyPorts(h);
    if reverse then FlowKey(h.dst, h.src, p.dport, p.sport, h.proto)
    else FlowKey(h.src, h.dst, p.sport, p.dport, h.proto)
  }

  /** The header of a packet going the other way in the same flow. */
  function Mirror(h: Inner): Inner {
    h.(src := h.dst, dst := h.src,
       ports := if h.ports.Some? then Some(Ports(h.ports.value.dport, h.ports.value.sport)) else None)
  }

  /** Both directions of a flow share one entry, and so do all fragments between two hosts. */
  lemma OneEntryPerFlow(h: Inner, g: Inner)
    ensures BuildFlowKey(Mirror(h), true) == BuildFlowKey(h, false)
    ensures Fragmented(h) && Fragmented(g) && (h.src, h.dst, h.proto) == (g.src, g.dst, g.proto)
            ==> BuildFlowKey(h, false) == BuildFlowKey(g, false)
  {
  }

  // ---------------------------------------------------------------- the table

  datatype Affinity = Affinity(lastSeen: nat, epoch: nat)

  type Table = map<FlowKey, Affinity>

  /** The affinity table with its two counters. */
  datatype Flows = Flows(table: Table, inserts: nat, fails: nat)

  datatype Touched = Touched(flows: Flows, hit: bool)

  /** touch_flow_affinity. `room` is whether the map takes a new entry. */
  function Touch(c: Ctrl, f: Flows, key: FlowKey, now: nat, room: bool): Touched {
    if key in f.table then
      if c.state == PRIMING || f.table[key].epoch == c.epoch then
        Touched(f.(table := f.table[key := Affinity(now, c.epoch)]), true)
      else
        Touched(f, false)
    else if c.state != PRIMING then Touched(f, false)
    else if room then
      Touched(f.(table := f.table[key := Affinity(now, c.epoch)], inserts := f.inserts + 1), false)
    else
      Touched(f.(fails := f.fails + 1), false)
  }

  datatype Picked = Picked(flows: Flows, slot: nat)

  /** pick_softwire_slot */
  function Pick(c: Ctrl, f: Flows, key: FlowKey, now: nat, room: bool): Picked {
    if c.state == STEADY then Picked(f, c.activeSlot)
    else
      var t := Touch(c, f, key, now, room);
      Picked(t.flows, if c.state == DRAINING && t.hit then c.oldSlot else c.activeSlot)
  }

  /** The downlink side: it refreshes or records the flow and makes no choice. */
  function Refresh(c: Ctrl, f: Flows, key: FlowKey, now: nat, room: bool): Flows {
    if c.state == STEADY then f else Touch(c, f, key, now, room).flows
  }

  /** The flows whose entry carries the control word's epoch. */
  ghost function Current(c: Ctrl, t: Table): set<FlowKey> {
    set k | k in t && t[k].epoch == c.epoch
  }

  /** During a drain a packet takes the old slot exactly when its flow has a current entry, and a
      drain never makes one; during priming the active slot carries everything, and every packet
      either leaves its flow current or counts a failure. */
  lemma PickedSlot(c: Ctrl, f: Flows, key: FlowKey, now: nat, room: bool)
    requires c.activeSlot != c.oldSlot || c.state != DRAINING
    ensures var p := Pick(c, f, key, now, room);
            && (p.slot == c.oldSlot && c.state == DRAINING <==> c.state == DRAINING && key in Current(c, f.table))
            && (c.state != DRAINING ==> p.slot == c.activeSlot)
            && (c.state == DRAINING || c.state == STEADY ==> Current(c, p.flows.table) == Current(c, f.table))
            && (c.state == PRIMING && p.flows.fails == f.fails ==>
                  Current(c, p.flows.table) == Current(c, f.table) + {key})
            && (c.state == PRIMING && p.flows.fails != f.fails ==>
                  p.flows == f.(fails := f.fails + 1) && key !in f.table)
  {
  }

  // ---------------------------------------------------------------- reclaiming entries

  datatype IdleTimeouts = IdleTimeouts(tcp: int, other: int)

  predicate GoneIdle(key: FlowKey, a: Affinity, now: nat, t: IdleTimeouts) {
    now - a.lastSeen > (if key.proto == PROTO_TCP then t.tcp else t.other)
  }

  /** What GCFlowAffinity leaves: entries of this epoch, and outside priming only live ones. */
  predicate Kept(c: Ctrl, key: FlowKey, a: Affinity, now: nat, t: IdleTimeouts) {
    a.epoch == c.epoch && (c.state == PRIMING || !GoneIdle(key, a, now, t))
  }

  function Collect(c: Ctrl, table: Table, now: nat, t: IdleTimeouts): Table {
    map k | k in table && Kept(c, k, table[k], now, t) :: table[k]
  }
}
