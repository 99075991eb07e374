# Minuteman, modelled and proved

Minuteman is a DS-Lite CPE: it carries the IPv4 traffic of a home LAN through an IPv6 softwire to an
AFTR (RFC 6333), with an XDP datapath in C and a control plane in Go. This project models its
stateful and arithmetic cores in Dafny and proves what they promise.

`dafny verify dfyconfig.toml` checks everything. Nothing here runs the original program.

## What is modelled

**Live AFTR migration.** The controller (`Controlling.dfy`) is the phase machine of
`internal/softwirectl/controller.go`; the softwire (`Serving.dfy`) serves its requests; the loader
(`Datapath.dfy`, `Loading.dfy`) turns each into a plan, a sequence of single map writes; flow affinity
(`FlowAffinity.dfy`) picks the slot of every packet. `Protocol.dfy` puts controller, FIFO queues,
softwire and maps together with each request served in one step, including controller crashes at any
point, answers of earlier generations, stale timers and server restarts. `Decisions.dfy` says what the
controller may rely on when it decides, `Placement.dfy` when traffic is where it takes it to be.
`Migration.dfy` is the same system at the grain packets see, with packets of both directions between
any two map writes; it refines `Protocol.dfy`. `MigrationTheorems.dfy` holds the results over all runs,
`EpochWrap.dfy` the passes it takes to wrap the epoch. `Scenarios.dfy` shows that every step of
`Protocol.dfy` is realised by single writes, and walks through runs: migrations that complete, flows that
are kept, and every state at which the system falls short.

**Softwire datapath.** `Checksum.dfy` (RFC 1071 and RFC 1624 arithmetic), `MssClamp.dfy`,
`Fragmentation.dfy` and `XdpFrame.dfy` (outer IPv6 fragments cut from clones of one frame),
`PathMtu.dfy` (learned path MTUs) and `TokenBucket.dfy` (the ICMP error limit). `Witnesses.dfy` holds
inputs at which they fall short.

**DHCPv4 server.** `DhcpCodec.dfy`, `DhcpFrame.dfy` and `DhcpReplies.dfy` are the wire formats;
`LeaseBook.dfy` and `LeasePool.dfy` the address pool; `DhcpHandler.dfy` and `DhcpRuns.dfy` the request
handler and its runs; `LeaseStore.dfy`, `DhcpServer.dfy` and `DhcpDurability.dfy` the durable table
through crashes. `DhcpWitnesses.dfy` holds runs at which it falls short.

**Smaller cores.** `RenewalTimers.dfy` (DHCPv6 prefix delegation) and `NdProxy.dfy`, `NdRuns.dfy`.

Objects whose fields change in place are classes (`Loader`, `Softwire`, `Pool`, `Frame`, `RateBucket`,
`NdState`), and their methods are proved to do what functions on values say; the theorems are about
those functions and about systems built from them.

## Where the code falls short of what one would expect

Each of these is a lemma at an input or a run that shows it, beside the exact condition.

- A B4 that is an IPv4-mapped IPv6 address is usable to the controller and refused by the datapath. In
  a drain the refused hard switch leaves the controller on the AFTR it is leaving while new flows go to
  the next one, exactly for those addresses (`RefusedSwitchDisagrees`). Over all runs the two disagree
  exactly while a cutover is outstanding (`EndpointsAgree`, `OutstandingIsLost`); a run for every pair and
  every such address leads there (`DisagreementRun`).
- A controller so misled asks for a migration while one is under way, which is exactly when BeginMigration
  finds another state than STEADY (`DrivenInOrder`) and is refused (`MisledBeginIsRefused`, `MisledRun`).
- The cutover gate reads the failure counter before the cutover request is served; a flow first seen
  after that and not recorded for want of room is cut over unrecorded (`LateFlowIsMissed`,
  `LateFlowRun`).
- The 8-bit epoch tells passes apart only modulo 256: over all runs a packet in a drain leaves by the old
  slot exactly when its flow was last recorded a multiple of 256 passes ago and not removed since
  (`FlowsPreserved`, `LeavesByOldSlot`). 255 passes rolled back, or any number one less than a multiple of
  256, make a drain keep a flow it never saw (`EpochWraps`, `StrangerIsPinned`, `EpochRun`).
- A Packet Too Big about a slot's former pair, between the two writes that put another pair into the
  slot, leaves its reading with the new pair (`RewriteExactly`, and over all runs `StaleExactly`); a hard
  switch followed by a migration gives the occasion (`FormerPairsReading`, `ReadingOfAnother`).
- A packet of more than 65527 bytes that is admitted to the fragmenter loses every fragment: its
  length with the Fragment header wraps (`FragmentationRoundTrip`, `LongPacketIsLost`).
- An MSS option at an odd offset breaks the TCP checksum unless both bytes change alike modulo 257
  (`ClampKeepsChecksum`, `OddClampBreaks`). One that lies behind the end of the segment, in the frame's
  padding, breaks it too (`ClampOutside`, `PaddedClampBreaks`), and so does one that the end of the segment
  splits, but for the cases `ClampSplit` names (`SplitClampBreaks`).
- The TTL update differs from a recomputed checksum exactly for the old value 0xfffe (`TtlRecomputed`,
  `TtlNotRecomputed`).
- The checksum of a DHCP frame is summed in 32 bits, and fails exactly when that sum wraps other than a
  multiple of 65535 times (`FrameVerifies`, `OverlongFails`); no payload of an IPv4 packet is that long.
- An offered address is free for others as soon as its client takes another server's offer, without a
  release or decline (`FreedOfferIsRegranted`, `FreedOfferRun`).
- A DHCPREQUEST repeated at one reading of the clock is answered before the first one's lease is known
  to be on disk (`RepeatLeavesAtOnce`, `RepeatRun`).
- Restoring a lease over an expired owner of its address leaves the pool's two indexes inconsistent
  (`RestoreLeavesStale`, `StaleOwner`); restarts never do that (`RestoreOne`).
- A prefix with a valid lifetime of zero hides the deadlines of the others from T1
  (`ZeroHidesDeadline`, `BeforeEveryEnd`).

## Model

| member | source | states |
|---|---|---|
| Addresses.UsableButRefused | internal/softwirectl/controller.go:79-81 | a B4 usable to the controller is refused by validateSoftwireAddrs exactly when it is IPv4-mapped |
| Addresses.MappedSourceIsUsable | pkg/datapath/config.go:26-34 | there is such an address |
| Datapath.UnpackPack | pkg/datapath/migration.go:29-43 | a control word reads back as written exactly when every field fits its byte |
| Datapath.PackUnpack | pkg/datapath/migration.go:29-43 | every 32-bit word is the packing of what it unpacks to |
| Datapath.StartupOutcome | pkg/datapath/config.go:42-92 | startup goes through exactly with valid endpoints and slot 0 not live, and leaves traffic on them in STEADY |
| Datapath.BeginOutcome | pkg/datapath/migration.go:78-113 | goes through exactly from STEADY with valid endpoints; prepares the other slot, leaves traffic in place; every intermediate state sound and every write harmless |
| Datapath.CutoverOutcome | pkg/datapath/migration.go:119-139 | goes through exactly from PRIMING; one write swaps the active slot and starts the drain |
| Datapath.CompleteOutcome | pkg/datapath/migration.go:147-168 | goes through exactly from DRAINING; keeps the active pair and retires the other slot only once unresolvable |
| Datapath.AbortOutcome | pkg/datapath/migration.go:174-192 | goes through exactly from PRIMING; traffic never moved |
| Datapath.SwitchOutcome | pkg/datapath/config.go:97-138 | from any state with valid endpoints lands on them in STEADY, cutting short any migration without touching a resolvable slot |
| Loading.Loader.constructor | pkg/datapath/migration.go:12-27 | maps start zeroed: STEADY on slot 0, nothing valid, nothing learned |
| Loading.Loader.WriteCtrl | pkg/datapath/migration.go:54-61 | the word written reads back as the control value |
| Loading.Loader.WriteNextHop | pkg/datapath/config.go:165-194 | refuses a live slot; else clears the path MTU, then puts the pair, and nothing else |
| Loading.Loader.ClearNextHop | pkg/datapath/config.go:199-207 | invalidates the slot, then forgets its path MTU |
| Loading.Loader.SetB4Config | pkg/datapath/config.go:42-92 | startup makes exactly the writes of its plan in order, or none |
| Loading.Loader.BeginMigration | pkg/datapath/migration.go:78-113 | makes exactly the writes of its plan in order, or none |
| Loading.Loader.Cutover | pkg/datapath/migration.go:119-139 | likewise |
| Loading.Loader.CompleteMigration | pkg/datapath/migration.go:147-168 | likewise |
| Loading.Loader.AbortMigration | pkg/datapath/migration.go:174-192 | likewise |
| Loading.Loader.SwitchAFTR | pkg/datapath/config.go:97-138 | likewise, with the migration ended first whatever its state |
| Loading.Loader.LearnTunnelPMTU | bpf/datapath.bpf.c:1811-1829 | changes only the slot's reading, as the learning rule says |
| Loading.Loader.TouchFlowAffinity | bpf/datapath.bpf.c:693-726 | the table, counters and hit flag are those of Touch |
| Loading.Loader.PickSoftwireSlot | bpf/datapath.bpf.c:734-748 | the slot and table are those of Pick |
| Loading.Loader.GCFlowAffinity | pkg/datapath/migration.go:223-274 | leaves exactly the current-epoch entries that are not idle (none idle in PRIMING) and counts them |
| FlowAffinity.OneEntryPerFlow | bpf/datapath.bpf.c:635-678 | both directions of a flow, and all fragments of one protocol between two hosts, share one key |
| FlowAffinity.PickedSlot | bpf/datapath.bpf.c:693-748 | in a drain the old slot exactly for current entries, and none are made; in priming every packet leaves its flow current or counts a failure |
| Controlling.NextRefreshWait | internal/softwirectl/controller.go:55-62 | never a busy loop: a positive interval is kept, any other becomes five minutes |
| Serving.Softwire.constructor | internal/softwirectl/softwire.go:61-63 | starts on the active pair, not migrating |
| Serving.Softwire.Handle | internal/softwirectl/softwire.go:121-199 | every request makes exactly the writes, state and reply of Serve |
| Protocol.ServeResult | internal/softwirectl/softwire.go:121-199 | where each request leads from the datapath state it must find |
| Protocol.InvStep | internal/softwirectl/controller.go:241-512 | every step of controller, queues, softwire and maps keeps the protocol invariant: queue tags, generations, phase knowledge |
| Protocol.ControlFrame | internal/softwirectl/controller.go:241-290 | a controller step depends only on the controller, the queues, the clock and the first answer |
| Protocol.HardSwitchItem | internal/softwirectl/controller.go:481-498 | the one request a hard switch sends, under a new generation |
| Decisions.GroundedControl | internal/softwirectl/controller.go:309-455 | the controller cuts over only on the failure count it was told in this pass after the full minute, and completes only on an empty table or its own cap |
| Decisions.GroundedHandle | internal/softwirectl/softwire.go:121-199 | serving a request keeps those grounds |
| Placement.PlacedStep | internal/softwirectl/controller.go:241-512 | every step keeps this: outside a migration the softwire is on the pair the controller takes to be current exactly when no cutover is outstanding |
| Migration.ControlRefines | internal/softwirectl/controller.go:241-290 | a controller step between map writes is a step of the atomic protocol |
| Migration.StartRefines | internal/softwirectl/softwire.go:117-121 | starting a request is serving it there |
| Migration.QuietRefines | pkg/datapath/migration.go:54-61 | single map writes, replies and packets change nothing there |
| Migration.InvStep | bpf/datapath.bpf.c:635-748 | the fine-grained invariant over writes, packets, collections, control steps and crashes |
| MigrationTheorems.Reachable | internal/softwirectl/controller.go:241-512 | it holds in every state of every run |
| MigrationTheorems.DrivenInOrder | internal/softwirectl/controller.go:309-455 | in every run Cutover, AbortMigration, GCFlowAffinity and CompleteMigration find the state they require; BeginMigration finds STEADY, and with valid endpoints goes through, exactly when no migration is under way: none begun that was not since aborted, completed, switched away from or recovered from |
| MigrationTheorems.SoftwireAgrees | internal/softwirectl/softwire.go:48-59 | between requests the softwire migrates exactly when the datapath is not STEADY, and its active pair is the active slot's |
| MigrationTheorems.EndpointsAgree | internal/softwirectl/controller.go:148-176 | in every run the pair the controller believes in use is the softwire's, always in a drain and otherwise exactly when no cutover is outstanding; the active slot is the softwire's pair between any two writes, across crashes and stale answers |
| MigrationTheorems.OutstandingIsLost | internal/softwirectl/controller.go:481-498 | a cutover is outstanding outside a drain only after a migration was left by a hard switch or its rollback refused |
| MigrationTheorems.MisledBeginIsRefused | internal/softwirectl/softwire.go:121-199 | a controller that takes the datapath to be settled while it is not has its next migration refused, with nothing written |
| MigrationTheorems.SlotsSafe | pkg/datapath/config.go:143-207 | between any two writes the active slot is valid, in a drain the old one too and another; no write touches a resolvable slot |
| MigrationTheorems.EpochTellsPass | pkg/datapath/migration.go:97-102 | as long as no stretch of more than 255 passes went without a collection, the epoch test equals an unbounded pass counter |
| EpochWrap.EpochWraps | pkg/datapath/migration.go:78-192 | a flow recorded in one pass, after n more begun and rolled back, leaves by the old slot in the next drain exactly when n + 1 is a multiple of 256 |
| EpochWrap.StrangerIsPinned | pkg/datapath/migration.go:78-192 | 255 suffice |
| MigrationTheorems.FlowsPreserved | bpf/datapath.bpf.c:693-748 | in every run a packet in a drain leaves by the old slot exactly when its flow was last recorded a multiple of 256 passes ago, else by the active one, and that slot is valid |
| MigrationTheorems.PinnedLeaves | bpf/datapath.bpf.c:693-748 | with fewer than 256 passes since, that is exactly when it is pinned, recorded in the pass under way |
| MigrationTheorems.StampExactly | bpf/datapath.bpf.c:693-726 | in every run a flow counts as recorded in the pass of the last packet to have recorded it, as long as no collection since found it idle or of another epoch |
| MigrationTheorems.LeavesByOldSlot | bpf/datapath.bpf.c:734-748 | so in terms of packets and collections alone: when exactly a packet in a drain leaves by the old slot |
| MigrationTheorems.PinnedEvolves | bpf/datapath.bpf.c:693-748 | what pins a flow and what lets it go, step by step, and that nothing else does |
| MigrationTheorems.PinnedExactly | bpf/datapath.bpf.c:693-748 | in every run a flow is pinned exactly when some packet of either direction recorded it in this pass and no collection since found it idle |
| MigrationTheorems.CutoverGate | internal/softwirectl/controller.go:371-401 | at every cutover priming ran its minute and every flow handled up to the counter reading is recorded |
| MigrationTheorems.LateFlowIsMissed | internal/softwirectl/controller.go:371-401 | a flow first handled after that reading, with no room, is not |
| MigrationTheorems.DrainEnds | internal/softwirectl/controller.go:423-452 | a completion finds no pinned flow unless this drain's own cap has fired |
| MigrationTheorems.CapIsOwn | internal/softwirectl/controller.go:268-272 | a drain is marked capped only once its own cap has fired, two hours or more after it began |
| MigrationTheorems.CapFires | internal/softwirectl/controller.go:268-272 | the one step that counts as that: the cap of this migration, in its drain, no earlier than two hours after the cutover |
| MigrationTheorems.StaleCapIsMute | internal/softwirectl/controller.go:268-272 | a cap of an earlier migration changes nothing |
| MigrationTheorems.RefusedSwitchDisagrees | internal/softwirectl/controller.go:481-498 | a hard switch in a drain ends in agreement exactly for a B4 that is not IPv4-mapped |
| Scenarios.Realises | internal/softwirectl/softwire.go:117-121 | the converse of the refinement: from a state between requests the system with its single writes can take every step of the protocol |
| Scenarios.MigrationCompletes | internal/softwirectl/controller.go:309-455 | from rest on any pair a run carries a migration to any other AFTR through to rest on the new pair |
| Scenarios.FlowIsKept | bpf/datapath.bpf.c:693-748 | a run in whose drain a flow seen in priming leaves by the old slot and one not seen by the new |
| Scenarios.CappedRun | internal/softwirectl/controller.go:423-452 | a run in which the cap fires and the completion is asked for with a flow still pinned |
| Scenarios.LateFlowRun | internal/softwirectl/controller.go:371-401 | a run in which a flow handled in the pass is cut over unrecorded |
| Scenarios.EpochRun | pkg/datapath/migration.go:97-102 | a run with n + 1 passes rolled back and then a drain, which keeps a flow it never saw exactly when n + 1 is a multiple of 256 |
| Scenarios.DisagreementRun | internal/softwirectl/controller.go:481-498 | for every pair and every IPv4-mapped B4 a run that ends with the controller on one AFTR and new flows on another |
| Scenarios.MisledRun | internal/softwirectl/controller.go:341-369 | ... and goes on to a migration asked for in DRAINING, refused with nothing written |
| Checksum.FoldsTwice | bpf/datapath_helpers.h:177-183 | two folds bring any 32-bit sum to 16 bits, congruent modulo 65535, zero only from zero |
| Checksum.AcceptedFolds | bpf/datapath_helpers.h:177-183 | a sum is accepted exactly when it folds to all ones |
| Checksum.ByteOrder | bpf/datapath_helpers.h:257-273 | a sum is accepted in one byte order exactly when in the other |
| Checksum.ReplacedKeeps | bpf/datapath_helpers.h:267-273 | what the checksum gains the word loses, modulo 65535 |
| Checksum.TtlKeepsChecksum | bpf/datapath_helpers.h:245-255 | a header verifies after the TTL decrement exactly when it did before; the payload is untouched |
| Checksum.TtlRecomputed | bpf/datapath_helpers.h:245-255 | the incremental checksum equals a recomputed one exactly when the old was not 0xfffe |
| Witnesses.TtlNotRecomputed | bpf/datapath_helpers.h:245-255 | a header at which they differ, valid both times |
| Checksum.ComputedVerifies | bpf/datapath_helpers.h:230-243 | a recomputed header verifies |
| Checksum.DecreaseIpv4Ttl | bpf/datapath_helpers.h:245-255 | in place, exactly DecreaseTtl |
| Checksum.Ipv4Checksum | bpf/datapath_helpers.h:230-243 | in place, writes the computed checksum and nothing else |
| MssClamp.ClampLowers | bpf/datapath_helpers.h:312-388 | the MSS only ever goes down, to the clamp; only it and the checksum change |
| MssClamp.ClampKeepsChecksum | bpf/datapath_helpers.h:267-388 | at an even offset the TCP checksum stays valid or invalid; at an odd one it stays valid exactly when the bytes change alike modulo 257 |
| MssClamp.ClampOutside | bpf/datapath_helpers.h:312-388 | an option that begins its value behind the end of the segment spoils a valid checksum, but for 65535 clamped to 0 |
| Witnesses.PaddedClampBreaks | bpf/datapath_helpers.h:312-388 | a SYN of 20 bytes with its MSS in the padding whose checksum is valid before and invalid after |
| MssClamp.ClampSplit | bpf/datapath_helpers.h:312-388 | an MSS split by the end of the segment: a valid checksum stays valid at an even offset exactly when the second byte stays, at an odd one exactly when the MSS is lowered by one from a multiple of 256 |
| Witnesses.SplitClampBreaks | bpf/datapath_helpers.h:312-388 | a SYN for which it does not |
| Witnesses.OddClampBreaks | bpf/datapath_helpers.h:267-388 | a SYN with a NOP before its MSS whose checksum is valid before and invalid after |
| MssClamp.Walk | bpf/datapath_helpers.h:337-385 | the option loop finds what the recursive walk finds |
| MssClamp.ClampTcpMss | bpf/datapath_helpers.h:312-388 | in place, exactly Clamped, and says whether it rewrote |
| Fragmentation.FragmentsAreRight | bpf/datapath.bpf.c:954-1129 | for every admitted packet clone i is the fragment at i units: offset, M flag, identification, payload, effective MTU; past the end it is dropped |
| Fragmentation.FragmentationRoundTrip | bpf/datapath.bpf.c:954-1129 | the payloads concatenate to the packet, whatever the configuration becomes between clones, exactly up to 65527 bytes |
| Fragmentation.ClonesAreClones | bpf/datapath.bpf.c:954-1026 | the guards bound the unit, the number of fragments and their size |
| Fragmentation.EmitCuts | bpf/datapath.bpf.c:1039-1129 | what one clone becomes |
| Fragmentation.EmitWraps | bpf/datapath.bpf.c:1060-1068 | a wrapped payload length drops every clone |
| Witnesses.LongPacketIsLost | bpf/datapath.bpf.c:954-1129 | a packet of 65530 bytes that is admitted, and of which nothing is carried |
| Fragmentation.WholeFits | bpf/datapath.bpf.c:1400-1481 | a packet sent whole fits the effective MTU and is carried unchanged behind its headers |
| Fragmentation.PacketVerifies | bpf/datapath.bpf.c:1416-1481 | its IPv4 header verifies exactly when it did on arrival |
| Fragmentation.FragUnit | pkg/datapath/frag.go:28-33 | the largest multiple of 8 that fits the MTU behind 48 bytes of headers, or 0 |
| XdpFrame.Frame.EncapFragment | bpf/datapath.bpf.c:991-1025 | in place, exactly the frame that is cloned |
| XdpFrame.Frame.EmitFragment | bpf/datapath.bpf.c:1039-1129 | in place, exactly Emit |
| PathMtu.LocalSlot | bpf/datapath.bpf.c:1838-1852 | the first valid slot of the quoted pair, addressed to its B4; none only if there is none |
| PathMtu.ReadingInForce | bpf/datapath.bpf.c:1811-1829 | in every run an MTU in force is at least 1280, a report received, and no larger than any report since its stamp |
| PathMtu.RisesOnlyWhenOld | bpf/datapath.bpf.c:1811-1829 | a reading rises only when 600 s old, or through a clear |
| PathMtu.MisplacedExactly | pkg/datapath/config.go:165-207 | a reading parts from its pair exactly when another pair is put over it |
| PathMtu.StaleExactly | pkg/datapath/config.go:165-207 | in every run of any writes and reports a reading is not of the pair in its slot exactly when that pair was put there after the last report taken, about another, with no clear since |
| PathMtu.RewriteExactly | pkg/datapath/config.go:165-194 | reports between the writes of writeNextHop carry over exactly when one hits the slot and the pair differs |
| PathMtu.FormerPairsReading | pkg/datapath/config.go:165-194 | a report about a pair still valid in the slot, between the two writes, stays as the new pair's reading |
| Witnesses.ReadingOfAnother | pkg/datapath/config.go:97-194 | startup, a hard switch and the next migration, with one report between two of its writes: the new pair begins with a path MTU that was never its own |
| PathMtu.RetireForgets | pkg/datapath/config.go:199-207 | clearNextHop leaves no reading, whatever arrives in between |
| PathMtu.OperationsBelong | pkg/datapath/migration.go:78-192 | every loader operation leaves every reading with its pair |
| PathMtu.ReportBelongs | bpf/datapath.bpf.c:1811-1852 | and so does every report |
| PathMtu.ReadingsBelong | pkg/datapath/config.go:42-207 | in every run of startup, operations and reports from fresh maps, each reading belongs to the pair now in its slot |
| PathMtu.TunnelPMTU | pkg/datapath/pmtu.go:24-46 | the minimum over the readings in force, none if there is none |
| TokenBucket.RateBucket.Allowed | bpf/datapath.bpf.c:528-547 | in place, exactly Allow |
| TokenBucket.AllowKeeps | bpf/datapath.bpf.c:528-547 | never more than 20 tokens, and the refill stamp never passes the clock |
| TokenBucket.AtMost | bpf/datapath.bpf.c:439-446 | in any window, grants number at most 20 and one for each 10 ms begun |
| TokenBucket.SpacedNeverRefused | bpf/datapath.bpf.c:528-547 | calls 10 ms apart are never refused exactly when the first is not |
| DhcpCodec.ChunksJoin | pkg/dhcpv4/options.go:90-110 | the chunks of a long option concatenate to its value |
| DhcpCodec.MarshalOption | pkg/dhcpv4/options.go:99-108 | the inner loop writes one or more chunks of at most 255 bytes |
| DhcpCodec.MarshalOptions | pkg/dhcpv4/options.go:97-110 | the loop writes the chunks of every option in order |
| DhcpCodec.ParseOptions | pkg/dhcpv4/options.go:114-140 | the loop reads what the recursive grammar reads, errors included |
| DhcpCodec.OptionsRoundTrip | pkg/dhcpv4/options.go:97-140 | options come back, in chunks, exactly when none has the code of PAD or END |
| DhcpCodec.Marshal | pkg/dhcpv4/message.go:84-108 | the buffer filled and padded in place is the wire form |
| DhcpCodec.MessageRoundTrip | pkg/dhcpv4/message.go:84-143 | every message parses back as its normalised form exactly for such options |
| DhcpCodec.NothingLost | pkg/dhcpv4/message.go:84-143 | nothing but the splitting is lost exactly for IPv4 addresses, a hardware address of its stated length and NUL-free names that fit |
| DhcpCodec.CStrOfField | pkg/dhcpv4/message.go:168-175 | a name survives its field exactly when it fits and holds no NUL |
| DhcpFrame.NetChecksum | pkg/dhcpv4/packet.go:151-163 | the loops compute the folded complement of the sum modulo 2^32, for any length |
| DhcpFrame.UdpChecksum | pkg/dhcpv4/packet.go:140-148 | the checksum over pseudo-header and datagram |
| DhcpFrame.BuildFrame | pkg/dhcpv4/packet.go:108-136 | filled in place, exactly Framed |
| DhcpFrame.FrameVerifies | pkg/dhcpv4/packet.go:108-163 | the IPv4 header of every frame verifies; UDP does exactly when its sum wraps a multiple of 65535 times, as for every payload up to 131052 bytes; its checksum is never zero, and the payload is intact |
| DhcpFrame.OverlongFails | pkg/dhcpv4/packet.go:140-163 | 131076 bytes of ones, for which it does not |
| DhcpReplies.ReplyOptionsPlain | pkg/dhcpv4/handler.go:145-215 | no reply holds an option with the code of PAD or END |
| DhcpReplies.GrantReadBack | pkg/dhcpv4/handler.go:145-156 | a client reading an OFFER or ACK finds the address, kind, transaction and server |
| LeaseBook.NewNet | pkg/dhcpv4/lease.go:68-89 | accepted exactly for an IPv4 subnet of 1 to 30 bits that holds the server; then masked, holding both addresses given |
| LeaseBook.ContainsIsRange | pkg/dhcpv4/lease.go:244-245 | the prefix test on a masked subnet is a range test |
| LeaseBook.FirstFreeIsLowest | pkg/dhcpv4/lease.go:259-266 | nothing grantable lies below the scan's result |
| LeaseBook.OfferIs | pkg/dhcpv4/lease.go:108-119 | the steps of Offer come to granting its choice |
| LeaseBook.OfferExact | pkg/dhcpv4/lease.go:108-119 | keeps a live address, else the requested one if free, else the lowest; fails exactly when all are taken |
| LeaseBook.OfferRebinds | pkg/dhcpv4/lease.go:108-119 | changes one binding, forgets only elapsed quarantines, keeps the book in order |
| LeaseBook.CommitSane | pkg/dhcpv4/lease.go:137-139 | committing a bound address keeps the book in order and rebinds just it |
| LeaseBook.ClearSane | pkg/dhcpv4/lease.go:225-230 | clearing keeps the book in order and every other binding |
| LeaseBook.DeclineSane | pkg/dhcpv4/lease.go:164-170 | declining keeps the book in order |
| LeaseBook.HoldRebinds | pkg/dhcpv4/lease.go:210-222 | one binding replaced, in both indexes |
| LeaseBook.RestoreLeavesStale | pkg/dhcpv4/lease.go:194-202 | restoring keeps the indexes inverse exactly when the address has no other owner |
| LeaseBook.StaleOwner | pkg/dhcpv4/lease.go:194-202 | a book in order and a lease for which it does not |
| LeasePool.Pool.constructor | pkg/dhcpv4/lease.go:79-88 | an empty book in order |
| LeasePool.Pool.ClearClient | pkg/dhcpv4/lease.go:225-230 | in place, exactly Clear |
| LeasePool.Pool.HoldAddress | pkg/dhcpv4/lease.go:210-222 | in place, exactly Hold |
| LeasePool.Pool.Allocatable | pkg/dhcpv4/lease.go:237-246 | the answer, and the elapsed quarantine forgotten |
| LeasePool.Pool.NextFree | pkg/dhcpv4/lease.go:259-266 | the scan ends, finds the lowest free address and forgets what it passes |
| LeasePool.Pool.Offer | pkg/dhcpv4/lease.go:108-119 | in place, exactly Offer, keeping the book in order |
| LeasePool.Pool.PickAndHold | pkg/dhcpv4/lease.go:108-119 | its body, from any book |
| LeasePool.Pool.BoundTo | pkg/dhcpv4/lease.go:126-132 | the running binding |
| LeasePool.Pool.Commit | pkg/dhcpv4/lease.go:137-139 | in place, for the address the client is bound to |
| LeasePool.Pool.CancelOffer | pkg/dhcpv4/lease.go:145-149 | in place |
| LeasePool.Pool.Release | pkg/dhcpv4/lease.go:153-157 | in place |
| LeasePool.Pool.Decline | pkg/dhcpv4/lease.go:164-170 | in place |
| LeasePool.Pool.CommittedTo | pkg/dhcpv4/lease.go:182-188 | the running committed lease |
| LeasePool.Pool.Restore | pkg/dhcpv4/lease.go:194-202 | in place |
| DhcpHandler.Handle | pkg/dhcpv4/handler.go:31-91 | on the pool, exactly Decide, keeping it valid |
| DhcpHandler.HandleRequest | pkg/dhcpv4/handler.go:95-141 | likewise for the three REQUEST substates |
| DhcpHandler.RequestKeeps | pkg/dhcpv4/handler.go:31-141 | the effect of any request: the book in order, others' running bindings untouched, grants only of addresses no one else holds, the client's own kept unless given up |
| DhcpRuns.AlwaysSane | pkg/dhcpv4/lease.go:108-256 | over any requests the indexes stay inverse and hold only unquarantined host addresses |
| DhcpRuns.NoDoubleAllocation | pkg/dhcpv4/handler.go:31-141 | an address granted to one client goes to another only after it was given up or its latest grant ran out |
| DhcpRuns.GrantStands | pkg/dhcpv4/lease.go:108-222 | a grant stands at its latest expiry until then |
| DhcpRuns.RunOutIsRegranted | pkg/dhcpv4/lease.go:208-256 | an address whose grant has run out goes to the next client that asks for it, and its old owner loses it |
| DhcpRuns.FreedOfferIsRegranted | pkg/dhcpv4/handler.go:100-104 | taking another server's offer gives ours up at once |
| DhcpWitnesses.FreedOfferRun | pkg/dhcpv4/handler.go:100-104 | a run of three requests at one instant from an empty pool that offers one address to two clients |
| LeaseStore.RestoreOne | pkg/dhcpv4/lease.go:194-202 | one restore into a pool being restored takes exactly a running lease of a host address not yet put back, and keeps the pool in order |
| LeaseStore.RestoreEach | internal/dhcpv4server/server.go:77-83 | in any order and from any table: the pool holds running leases of the table and the address of every one to be taken back; the refused are the rest |
| LeaseStore.PutBackApart | internal/dhcpv4server/server.go:77-83 | where no two running leases share an address, exactly the leases to be taken back |
| LeaseStore.DeleteEach | internal/dhcpv4server/server.go:84-88 | the second loop deletes the refused and no other |
| LeaseStore.RestoreAll | internal/dhcpv4server/server.go:77-90 | pool and table after a restart, from any table |
| LeaseStore.RestoredUnique | internal/dhcpv4server/server.go:77-90 | without shared addresses the restored pool does not depend on the order |
| DhcpServer.PutIsGrant | internal/dhcpv4server/server.go:234-248 | a lease written was granted by this request, for a full duration |
| DhcpServer.SurrenderedByItsClient | pkg/dhcpv4/handler.go:31-91 | only a release or decline gives a committed lease up |
| DhcpServer.AgreeKept | internal/dhcpv4server/server.go:234-248 | what keep writes makes the table agree with the pool again |
| DhcpServer.InvStep | internal/dhcpv4server/server.go:189-267 | requests, disk progress, held replies, sweeps, crashes and restores keep the invariant |
| DhcpDurability.TableIsBook | internal/dhcpv4server/server.go:234-248 | in every run a client's running table entry is its committed lease, both ways |
| DhcpDurability.RestartPossible | internal/dhcpv4server/server.go:77-90 | from any crash point no two running leases share an address, and all are taken back |
| DhcpDurability.AckedLeaseSurvives | internal/dhcpv4server/server.go:189-220 | a reply sent was durable first; its lease comes back from any crash point, no shorter, unless run out, released or declined |
| DhcpDurability.NeverRegranted | pkg/dhcpv4/handler.go:31-141 | through any crashes, the address of a grant that runs and was not given up goes to no other client |
| DhcpDurability.GoneByItsClient | internal/dhcpv4server/server.go:234-248 | a grant is given up only by a release or decline of its own client |
| DhcpDurability.GrantWaitsExactly | internal/dhcpv4server/server.go:189-248 | when exactly a reply granting a committed lease is not held |
| DhcpDurability.GrantWaits | internal/dhcpv4server/server.go:189-201 | with an advancing clock such a reply is held and its lease written |
| DhcpDurability.RepeatLeavesAtOnce | internal/dhcpv4server/server.go:234-248 | with a clock that stands still it is not |
| DhcpWitnesses.RepeatRun | internal/dhcpv4server/server.go:234-248 | a DISCOVER, a REQUEST whose reply waits, and the same REQUEST again, whose reply does not |
| RenewalTimers.KeepSensible | pkg/prefixdelegation/acquire.go:43-45 | drops exactly the prefixes preferred for longer than valid |
| RenewalTimers.Usable | pkg/prefixdelegation/acquire.go:35-56 | accepted exactly with success, a sensible prefix and no T1 above a non-zero T2; keeps exactly the sensible prefixes |
| RenewalTimers.ShortestOf | pkg/prefixdelegation/timers.go:124-153 | the running minimum is the least lifetime, 0 for none |
| RenewalTimers.EffectiveTimers | pkg/prefixdelegation/timers.go:45-90 | exactly Timers, every value within 64 bits |
| RenewalTimers.TimersAreSafe | pkg/prefixdelegation/timers.go:45-90 | 0 < T1 <= T2, server values kept, a derived T1 below a minute only as half its deadline and before a finite lifetime, a derived T2 within it exactly when T1 is |
| RenewalTimers.TimersRecommended | pkg/prefixdelegation/timers.go:107-115 | half and four fifths of the shortest preferred lifetime, exactly |
| RenewalTimers.BeforeEveryEnd | pkg/prefixdelegation/timers.go:53-66 | when exactly a derived T1 precedes the end of every prefix |
| RenewalTimers.ZeroHidesDeadline | pkg/prefixdelegation/timers.go:94-99 | a case where it does not |
| NdProxy.NdState.constructor | pkg/ndproxy/state.go:86-91 | nothing pending, nothing active |
| NdProxy.NdState.OnWANSolicit | pkg/ndproxy/state.go:108-118 | in place, exactly OnWanSolicit |
| NdProxy.NdState.OnLANAdvert | pkg/ndproxy/state.go:126-134 | in place, exactly OnLanAdvert |
| NdProxy.NdState.SweepPending | pkg/ndproxy/state.go:148-160 | retransmits, gives up and keeps exactly the probes due for it, each listed once |
| NdProxy.NdState.SweepActive | pkg/ndproxy/state.go:161-166 | drops and lists exactly the entries five minutes old |
| NdProxy.NdState.SweepAll | pkg/ndproxy/state.go:147-168 | both |
| NdRuns.InvStep | internal/ndppd/proxy.go:88-137 | every packet and sweep keeps the proxy's invariant |
| NdRuns.SaidIsSent | internal/ndppd/proxy.go:88-122 | the replies recorded are exactly the advertisements sent, in order |
| NdRuns.AdvertsAreBacked | internal/ndppd/proxy.go:88-122 | every advertisement among the effects sent is backed by a LAN one under five minutes old that answered a pending probe |
| NdRuns.NeverBoth | pkg/ndproxy/state.go:108-134 | no target is pending and freshly active |
| NdRuns.AtMostThree | pkg/ndproxy/state.go:147-160 | a pending probe has solicited each LAN once for each attempt, at most three times |
| NdRuns.RoutesAreActive | internal/ndppd/proxy.go:108-137 | the route map the casts build is always the active map |

## Left out

- Map writes that fail: an operation of the loader fails before its first write or completes; only its first read may fail.
- The softwire server's death in the middle of a request, and minuteman restarting over pinned maps.
- The companion tunnel's endpoints (setTunnel), and DNS servers carried by a discovery.
- Discovery itself, which may answer anything or fail; its durations and error texts.
- Counters of 2^64 affinity failures, and counter reads that tear across CPUs.
- Packets whose control-word load and slot read straddle several operations: a packet is one step.
- Drain caps being cancelled or replaced: any cap once started may fire, which allows more runs than the code does.
- Loading.Loader.LearnTunnelPMTU: the stamp of a reading is not ahead of the clock of a later report, as it could be across CPUs.
- bpf_fib_lookup, bpf_check_mtu, redirects and room in front of a frame, which are inputs; bpf_check_mtu asks for fragmentation exactly above the device MTU.
- Decapsulation, ICMP replies built in place, native IPv6 forwarding and CPU fan-out.
- Big-endian machines: words are read little-endian, and Checksum.ByteOrder says what changes.
- Parsing requests out of IPv4/UDP frames and choosing a reply's destination.
- Overflow of seven times the lease time, from about 41 years on.
- LeaseStore.RestoreAll: where running leases share an address, which of them is put back, which the order of the table decides; DhcpDurability.RestartPossible shows that no crash point leaves such a table.
- DhcpDurability.AckedLeaseSurvives: with a clock that advances from one request to the next, for clients with an identity, writes that succeed, and the same subnet, server and lease time after a restart.
- The table's own format and compaction: it is a log of writes of which a crash keeps a prefix.
- ParseIAPD and the Solicit, Request, Renew and Rebind exchanges around the timers.
- Neighbour message formats, sockets and netlink; casts to the routes process are applied in order.
- radvd, the DHCPv6 client, the DNS proxy, provisioning, device setup and wiring.
