# Two consoles and a relay: a verified model

Combat on two Atari 2600s plays in lockstep over a byte stream. Each console keeps an
eight-bit tick, an eight-slot ring of the peer's input, a four-slot ring of its own and a
watermark; a gate at every tick boundary runs the tick or stalls it; a transport machine
that is not tied to the tick sends windows of three captures and takes the peer's out of
a reply window. A relay between the two reassembles frames, pairs clients, forwards and
pads records and compares the checksums they carry. This project models all three and
proves that the two machines simulate the same inputs at the same tick, that the relay is
a lossless pipe between them, that its verdict is about their simulations, and that its C
port does what the Python does exactly while its tables and buffers have room and no index
outlives the client it denotes.

## Layout

| files | what they hold |
|---|---|
| `Bytes`, `Entry`, `Wire`, `Ports`, `Checksums` | eight-bit arithmetic, the flag byte, the wire byte, the record and its check byte; the port routines and the state checksum on the bits, instruction by instruction |
| `Console`, `Machine` | one console: what a frame and a micro-step do, as functions; and the same in place, on a class with rings as arrays, each method proved to be its function |
| `Lockstep`, `FrameProofs`, `NetProofs`, `Agreement`, `Delivery`, `Progress` | two consoles, two queues, every interleaving; the invariant; the theorems over all runs; nothing sent is lost, a WRITE and a READ come round, and nobody waits for ever |
| `Simulation`, `Watchdog`, `LocalPlay` | the game as an unknown deterministic step: stalls, alarms, repairs; the stall counter; the console that is in no match |
| `Exactness`, `Paths`, `Counterexample` | where agreement ends; runs from power-up: one beyond it, and one that reaches every bound |
| `Transport` | the reading half of the transport over raw bytes |
| `Framing`, `Verdicts`, `Relay`, `RelayRuns` | the relay: framer, checksum logs, every operation as a function on its state; names, queue and matching over whole runs |
| `Naming`, `Roster`, `Answers`, `Handing`, `Counting` | what the relay hears and says, in bytes: which names it takes and who has them, what it answers, what START tells two consoles, and what each of its counters counts |
| `RelayPaths`, `Joining`, `Overflow` | runs of the relay from an empty server: when a JOIN or a HELLO keeps the matching and one that does not, and one that passes the C buffer |
| `Fifo`, `FifoProofs`, `Pipe`, `Meeting`, `Buffers`, `Ear`, `EndToEnd` | the relay with its history: a lossless pipe, a first match, its buffers, what its logs hear, and consoles and relay together |
| `Reporting`, `Silence`, `Conversation` | when two reports get their verdict; what the relay makes of clients it has used before, and what two consoles in lockstep can say |
| `PyRelay` | the Python server as classes that refer to each other and change in place |
| `CTables`, `CSpec`, `CRelay` | the C relay's arrays and memmoves; what it does with each event and exactly when that is Python's; its slots, generations, sweeps and loop |

A console's cells hold bytes. Unbounded ticks exist only in the history beside them, which
no step of the cells reads; so every theorem about ticks says something about wrap-around.
The game is a parameter: a state type with a deterministic run step, a redraw step and a
view of the cells the netcode looks at.

## What is assumed

- **Timely reads.** In every batch a READ fetches, the newest stamp is at most
  max(watermark, 1) + 3 (`Lockstep.Timely`). Agreement, skew, ring safety, immutability and
  everything built on them are for runs whose reads are timely. `Counterexample` gives a
  run from power-up that breaks agreement without it; `Exactness` says exactly which record
  would do so, at every tick it opens, and which late duplicate, at every distance.
- The two queues are reliable and in order (the relay half of the project justifies this);
  a READ that fails has consumed nothing; a READ that succeeds returns what it asked for;
  micro-steps run in the slack of a frame, so never before the first one.
- For the theorems on simulations only: the run step ignores the B&W bit of the switch
  shadow and a stalled frame's redraw changes nothing the logic can see
  (`Simulation.Lawful`); for the healing theorem, a tick with RESET down forgets the state
  before it (`Simulation.ResetForgets`).
- For `Progress` only: the cartridge answers what is launched (a write comes round whatever
  the answers are; what waits is read once they are good), and a console keeps being given
  frames.
- For the pipe and the matching: conforming consoles, that is one HELLO, no JOIN, nothing
  after BYE (`RelayRuns.Polite`). `Joining` says exactly when a JOIN or a second HELLO keeps
  the matching, and gives a run from an empty server in which a JOIN does not. Names,
  framing, receive buffers and the queue are for any traffic.

## Where code and comments part

The model follows the code.

- The tick is incremented before the gate compares (src/cbinput.inc:79-118), so a stalled
  console sits one tick further on than src/cbdefs.inc:104-110 counts: the skew is three
  and six ticks can be live in the remote ring, not five. Eight slots still suffice.
- src/cbnet.inc:153-159 says lockstep keeps the tick from moving more than three between
  two WRITEs. It moves by up to six (`Agreement.StampsMoveSlowly`), and does move by six
  (`Counterexample.StampsMoveBySix`): records are consumed newest first, and the gate may
  run between two of them. Agreement needs timely reads.
- src/cbcap.inc:87-91 takes fifteen stalls for a second. The counter counts frames: the
  sixteenth stalled frame, about a quarter of a second, gives the peer up.
- src/cbnet.inc:341-344 calls a clean leave instant. It is exactly when the gate is closed
  at the next boundary; a console still holding input runs the tick and clears the counter.
- server/c/src/combat-relay.c:127 and :470 say a checksum map never passes nine entries.
  Eviction runs only when a report finds no partner entry, so the map of the console that
  reports second grows with every tick; in C it is full after sixteen.
- Pairing clears the checksum maps but not the lap (server/combat_relay_server.py:291-292):
  clients that come from earlier matches in different laps are never compared, however long
  their match lasts (`Silence.NeverCompared`, `Conversation.RepairedMatchIsSilent`).
- server/combat_relay_server.py:301-304 lets an unnamed client pair by JOIN; building START
  then raises, the links already made. C sends an empty name instead.
- server/combat_relay_server.py:260-261 searches for a free name without limit, and from
  seven characters on only ten names are ever tried. C gives up after a thousand draws, and
  its table of names, full, forgets the oldest name where Python's dict grows. A second
  HELLO leaves the first name taken for ever (`Roster.HelloKeepsExact`).
- The C comment at server/c/src/combat-relay.c:109-119 bounds a transmit buffer at 226,636
  bytes, without what others make the relay tell the client. Each other client that does
  adds up to 17,192 bytes in one turn of the loop, or 32,228 where somebody sends a JOIN:
  with one, the partner, the bound is 243,828, with two it is still below the array, and
  seventeen newcomers that pair with a waiting client one after another pass it
  (`Overflow.TheCapCanBePassed`). From there on C's buffer is not Python's
  (`Buffers.CapIsExact`, `CSpec.CActIsDo`), which :513-516 calls unreachable.
- server/c/src/combat-relay.c:1017-1024 leaves a dropped client's partner index, and :1041-1043
  says a slot outlives the loop that killed it, as a Python object does. A JOIN from a paired
  client leaves its old partner's index behind as well; when it drops and the sweep frees its
  slot, that index denotes whoever sits there next, while Python still refers to the dead
  object (`CRelay.Server.StrangerInherits`, `Joining.JoinBreaksTheMatching`). A sweep leaves
  the clients as they were exactly when no live one refers to a dead one
  (`CSpec.RelinkedIff`).

## Model

| member | source | states |
|---|---|---|
| Bytes.SignedCompare | src/cbinput.inc:107-118 | for ticks up to half a lap apart the one signed byte comparison decides the unbounded one |
| Bytes.DistanceIsExact | src/cbinput.inc:107-118 | one distance is decided right, for every pair of ticks that far apart, exactly when its residue modulo 256 has the sign it has; otherwise wrong for every pair |
| Bytes.HalfLapIsExact | src/cbnet.inc:422-431 | of all intervals of distances around zero, exactly those within -128 to 127 are decided right throughout |
| Bytes.SlotOfWrapped | src/cbnet.inc:370-388 | masking an offset wrapped tick names the slot of the unbounded tick, across every wrap |
| Entry.DecodeInjective | src/cbdefs.inc:157-200 | the flag byte holds its fields and nothing else |
| Entry.BumpPhase | src/cbphi.inc:21-26 | adding $40 counts the phase modulo four and disturbs no flag |
| Entry.ClearRsy | src/cbcrc.inc:70-80 | the AND/EOR pair clears the armed bit and nothing else |
| Entry.Handover | src/cbsess.inc:239-296 | the first flag byte of a match: the role bit of START, networked, ran, and nothing else |
| Wire.CaptureKeepsThePorts | src/cbcap.inc:14-68 | a captured byte carries the left stick, its trigger, RESET, SELECT and the left difficulty, each at its own bit |
| Wire.SwitchBits | src/cbinput.inc:186-226 | every bit of the mixed switch byte: either player's RESET, either's SELECT between games only, uncrossed difficulties, local B&W |
| Wire.MixOfCaptures | src/cbinput.inc:157-226 | two consoles' ports, captured and mixed, reach the game as each player's own stick, trigger and switches |
| Wire.OnlyBlackAndWhiteIsLocal | src/cbinput.inc:206-213 | the shadows of both consoles agree but for the local B&W bit |
| Wire.ResetReachesTheGame | src/cbinput.inc:186-205 | RESET down in either byte reaches the game whatever else is pressed |
| Wire.PressIsOnlyReset | src/cbcrc.inc:78-80 | the synthetic press lowers RESET and changes no other bit |
| Wire.CheckByteDetects | src/cbnet.inc:349-360 | replacing any one byte that carries anything makes a frame the receiver drops |
| Wire.ZerosAreNoRecord | src/cbdefs.inc:252 | the salt: a reply window of zeros is no record |
| Wire.RecordsAreSound | src/cbnet.inc:126-178 | the sender's running check byte is the one the receiver recomputes, for every record |
| Wire.ChecksumSeesEveryCell | src/cbcrc.inc:10-46 | two states that differ in one covered cell have different checksums |
| Checksums.ShiftAdd | src/cbcrc.inc:32-46 | one ASL and one ADC on the bits, the bit shifted out coming back in as the carry, is one stirring of the checksum |
| Checksums.ChecksumLoop | src/cbcrc.inc:32-46 | eleven such pairs in two loops compute the checksum function over the twelve cells |
| Checksums.OneCellTurns | src/cbcrc.inc:32-46 | the checksum of a state whose only nonzero cell is followed by j shifts is that cell turned left j times: BINvar eleven, GAMVAR ten, DIRECTN[i] four and i, TankY0[i] i |
| Checksums.ExchangeIsSeen | src/cbcrc.inc:32-46 | where the cells before them are zero, exchanging two neighbouring cells changes the checksum, whatever follows, unless they are equal or are 0 and 255 |
| Wire.IdleIsUntouched | src/cbdefs.inc:243 | the byte the rings are seeded with is a console on which nobody touches anything |
| Ports.MixBytes | src/cbinput.inc:164-226 | the shifts, ANDs and ORs on the bytes, in the source's order, make the number each shadow has in Wire.Mix |
| Ports.PackPorts | src/cbcap.inc:27-68 | the shifts, ANDs and ORs on the ports, in the source's order, make the number Wire.Capture is |
| Ports.PressReset | src/cbcrc.inc:78-80 | clearing bit 4 is Wire.Press, whatever the other bits |
| Ports.ByteOfInjective | src/cbdefs.inc:225-229 | the number a byte's bits make determines every one of them |
| Machine.Netcode.SeedRings | src/cbsess.inc:267-271 | one loop over the contiguous rings makes both idle |
| Machine.Netcode.Handover | src/cbsess.inc:267-294 | from any cells, the match starts at tick $FF, watermark $FE, idle rings, the role START gave |
| Machine.Netcode.CaptureByte | src/cbcrc.inc:70-82 | a capture presses RESET once if a repair is armed, and disarms it |
| Machine.Netcode.AdvanceTick | src/cbinput.inc:75-105 | tick, sample and capture move together or not at all |
| Machine.Netcode.Run | src/cbinput.inc:124-233 | a tick that runs reads both rings, swaps for a guest and clears the stall count |
| Machine.Netcode.StallFrame | src/cbcap.inc:92-102 | a stalled frame freezes the logic and counts, or gives the peer up |
| Machine.Netcode.ShimFrame | src/cbinput.inc:49-118 | one frame in place is the frame function on the cells |
| Machine.Netcode.Window | src/cbnet.inc:160-170 | the loop writes the three captures newest first and accumulates their check byte |
| Machine.Netcode.WriteRecord | src/cbnet.inc:98-180 | the record launched is the one of the window ending two ticks ahead |
| Machine.Netcode.StatusAnswered | src/cbnet.inc:231-266 | only whole frames are asked for, capped at 248 bytes |
| Machine.Netcode.ReadAnswered | src/cbnet.inc:294-310 | bytes become records and the cursor stands past the last |
| Machine.Netcode.ConsumeRecord | src/cbnet.inc:330-432 | type, check byte, window into the ring, desync test and watermark, each on its own condition |
| Machine.Netcode.Step | src/cbnet.inc:65-442 | one micro-step in place is the micro-step function on the cells |
| Console.NextSeq | src/cbnet.inc:76-85 | a launched sequence number goes round from 1 to 255 and is never the one already answered |
| FrameProofs.GateDecides | src/cbinput.inc:107-118 | in every state of the invariant the gate opens exactly when the peer's byte for the tick has been received |
| FrameProofs.WiresAreAgreed | src/cbinput.inc:130-155 | the bytes an open gate fetches are the two histories' captures for that tick, host first |
| FrameProofs.VideoKeeps | src/cbinput.inc:49-233 | a frame on one console keeps the invariant of both |
| NetProofs.OutgoingIsGenuine | src/cbnet.inc:126-178 | a record on the wire is what the sender's history dictates for its stamp: three captures and the checksum of the state entering the tick two before |
| NetProofs.StoredSlots | src/cbnet.inc:362-388 | a window lands in the slots of its own three ticks and no other |
| NetProofs.ConsumeRing | src/cbnet.inc:324-388 | consuming any pending record leaves every slot of a live tick holding the peer's capture for it |
| NetProofs.ReadKeeps | src/cbnet.inc:294-310 | a timely READ keeps the invariant |
| NetProofs.NetKeeps | src/cbnet.inc:65-442 | every micro-step keeps the invariant of both consoles |
| Agreement.ReachableInv | src/cbnet.inc:153-159 | every state of every timely run satisfies the invariant |
| Agreement.InputAgreement | src/cbinput.inc:107-155 | a console that ran tick t ran the host's and the guest's capture for t, so two that ran it ran the same; ticks 0 and 1 ran idle |
| Agreement.BoundedSkew | src/cbinput.inc:79-118 | the ticks differ by at most three and the watermark is -2 to 5 from the tick, for ever |
| Agreement.WrapTransparency | src/cbnet.inc:405-431 | gate, watermark and desync test on bytes decide what they would on unbounded ticks, in every reachable state |
| Agreement.RingSafety | src/cbnet.inc:324-388 | every tick from seven below the watermark up to it has its slot to itself, filled with the peer's capture |
| Agreement.RecordImmutability | src/cbinput.inc:58-105 | two records ever sent with one stamp are the same eight bytes, and windows agree on every tick they share |
| Agreement.ReadsFit | src/cbnet.inc:200-264 | a READ asks for 1 to 31 whole frames, all of which have arrived |
| Agreement.StampsMoveSlowly | src/cbnet.inc:137-159 | between two records a console sends, its stamp moves by 0 to 6 |
| Delivery.EmptyMeansReceived | src/cbnet.inc:294-335 | in every reachable state, when nothing is on its way to a live console and nothing waits in its window, its watermark is the last stamp its peer sent |
| Delivery.DeadlockFreedom | src/cbinput.inc:107-118 | when both queues and windows are empty and each console has written at its current tick, the console that is not ahead has an open gate |
| Progress.NeverParked | src/cbnet.inc:54-66 | in no reachable state is a console's transport idle or failed |
| Progress.WritesComeRound | src/cbnet.inc:98-266 | in every run, among any 38 micro-steps of a console whose transactions are answered one sends a record, stamped two past the tick it was sent on, whatever STATUS reports and whichever transactions fail |
| Progress.ReadsComeRound | src/cbnet.inc:231-335 | however much waits for a console, after 39 served micro-steps a record and one cycle more it knows every record its peer had sent |
| Progress.FrameRuns | src/cbinput.inc:64-118 | the next tick to run is the number of those that have, and at a boundary it runs exactly when the watermark has reached it |
| Progress.NobodyWaitsForEver | src/cbnet.inc:153-159 | from every reachable state: one answered cycle of the peer, a bounded number of served micro-steps of its own and four frames, whatever happens in between, and the console that is not ahead has run another tick |
| Simulation.VideoTold | tools/patches.py:41-81 | a run frame is one game step with the tick's shadows, a stalled frame none |
| Simulation.StallIndependence | src/cbinput.inc:49-56 | the state entering any tick is one fold over the agreed inputs, four steps a tick, whatever either console stalled through; so both are equal at every tick |
| Simulation.AlarmsAreReal | src/cbnet.inc:389-420 | a repair is armed only where the two simulations entered a tick with different checksums, so never between undisturbed ones |
| Simulation.DetectionIsExact | src/cbnet.inc:405-420 | a record of the tick this console is on arms a repair exactly when the two checksums of that tick differ |
| Simulation.RepairLands | src/cbcrc.inc:57-82 | an arming at t presses RESET in the capture for t + 3 and no other, and both consoles apply it at t + 3 even if diverged |
| Simulation.RepairHeals | src/cbdefs.inc:190-200 | if a RESET tick forgets the state before it, the two simulations are equal in every later tick |
| Watchdog.StalledFramesCount | src/cbcap.inc:87-102 | k stalled frames give the peer up exactly when they fill the nibble, and change nothing else |
| Watchdog.RunningClears | src/cbinput.inc:126-128 | a tick that runs clears the count, so stalls it separates never add up |
| Watchdog.RefusalGoesRound | src/cbnet.inc:435-442 | a refused transaction leaves its reason beside the stall count, which it does not touch, and goes round again from the WRITE; any other step leaves that byte alone but for the peer's farewell |
| Watchdog.OldAnswerIsNotTaken | src/cbnet.inc:71-94 | after a launch nothing happens while the cartridge still shows the sequence number it showed before |
| Watchdog.CountIsStallsInARow | src/cbcap.inc:87-102 | over any run without a farewell the counter is the number of boundaries stalled at since the last tick that ran, whatever the transport did, and the peer is given up exactly at a stall that finds fifteen |
| Watchdog.SixteenthStallGivesUp | src/cbsess.inc:278-279 | so from the handover the sixteenth stall in a row gives the peer up, and no earlier one |
| Watchdog.CleanLeaveIsInstantIff | src/cbnet.inc:341-347 | after PEER_LEFT the next boundary gives the peer up if and only if its gate is closed |
| LocalPlay.LocalPlayIsStock | src/cbcap.inc:104-121 | outside a match every frame's logic runs on the ports as they are read, the left player's trigger first, and no cell of the netcode and no history is touched |
| Exactness.WindowIsExact | src/cbnet.inc:153-159 | at every tick, and at the later ticks a newer record opens: a waiting console finds the right byte in the slot if and only if the record's window reaches back to the watermark, or the byte that slot holds, a lap older or still idle, coincides |
| Exactness.DuplicateIsExact | src/cbnet.inc:367-369 | a late duplicate, at whatever distance: it lands in no slot of a tick still to run but its own if and only if it clears them, in a closed form that holds whenever it trails the watermark by less than six; otherwise the slots stay right if and only if the captures that land there coincide; and the watermark stays if and only if the distance modulo 256 is at most 128 |
| Counterexample.UntimelyReadsBreakAgreement | src/cbnet.inc:315-319 | there is a run from power-up, without timely reads, after which both consoles ran tick 2 with different inputs |
| Counterexample.BoundsAreReached | src/cbdefs.inc:104-110 | a timely run from power-up reaches a skew of three and a watermark five ahead at once: both bounds of BoundedSkew are met |
| Counterexample.StampsMoveBySix | src/cbnet.inc:153-159 | the same run goes on to a record stamped six past the one before it: the bound of StampsMoveSlowly is met |
| Transport.MicroKeeps | src/cbnet.inc:231-335 | every micro-step stays on a frame boundary, never reads past what STATUS reported, and consumes a frame it never consumed before |
| Transport.WholeFrames | src/cbnet.inc:243-266 | over any cutting of the stream, outside CONSUME the frames consumed are exactly the frames read, each once |
| Transport.WholeFramesFromHandover | src/cbsess.inc:267-294 | so in every run from the handover, where nothing has arrived and nothing been read |
| Transport.BytesAreRecords | src/cbnet.inc:294-335 | the byte reader moves exactly the records the lockstep model's queue moves |
| Transport.StatusIsObeyed | src/cbnet.inc:243-266 | bytes waiting lead to a READ of every whole frame of them, up to thirty-one; none lead back to the WRITE |
| Transport.CorruptionIsDropped | src/cbnet.inc:349-360 | an input record with one of the bytes that carry anything replaced leaves every cell as it was |
| Framing.FrontOfFrame | server/combat_relay_server.py:103-106 | the bytes of a frame are a length byte, its type and its payload: the parser finds exactly that frame, and after it exactly what follows |
| Framing.FrontDecides | server/combat_relay_server.py:184-202 | a frame is taken exactly when the buffer begins with one of at most 200 bytes, and the connection given up exactly at a length of zero or above 200 |
| Framing.ParseMore | server/combat_relay_server.py:184-202 | parsing more bytes is parsing the leftover and the new bytes; a bad length is found at the same frame whatever follows |
| Framing.ChunksDoNotMatter | server/combat_relay_server.py:184-202 | every cutting of a stream into chunks gives the same frames, verdict and leftover |
| Framing.ParseEncode | server/combat_relay_server.py:103-106 | frames with bodies of 1 to 200 bytes parse back to themselves |
| Framing.EncodeParse | server/c/src/combat-relay.c:682-692 | frames and leftover are the bytes; a live connection's leftover is a partial frame of at most 200 bytes |
| Verdicts.LapIsExact | server/combat_relay_server.py:337-343 | for a move of -127 to 127 the rebuilt key moves with the true tick if and only if it is no step back across a wrap |
| Verdicts.HearAllTracks | server/combat_relay_server.py:318-360 | through any interleaving, duplication and eviction every log entry is a report its console made, at a fixed offset |
| Verdicts.VerdictCompares | server/combat_relay_server.py:345-360 | every verdict compares one report of each console, at ticks exactly their offsets apart, and is a mismatch exactly when the checksums differ |
| Verdicts.MismatchIsReal | server/combat_relay_server.py:355-358 | between fresh clients every mismatch is two reports of one absolute tick with different checksums |
| Reporting.DivergenceIsReported | server/combat_relay_server.py:345-360 | where the two offsets agree, a tick reported by one console and then by the other, with at most seven other reports of the first in between, gets its verdict: a mismatch exactly when the checksums differ |
| Counting.LogsAreDicts | server/combat_relay_server.py:345 | whatever anyone sends, no checksum log ever has a key twice |
| Counting.StepCounts | server/combat_relay_server.py:345-360 | what each step adds to each counter: a mismatch or an agreement exactly when the reporter's partner holds an entry under the rebuilt key, with another checksum or the same; a match exactly when its caller is told START; and so for the other four |
| Counting.DivergenceIsCounted | server/combat_relay_server.py:355-360 | under the conditions of that verdict, over any other conforming traffic, the relay's own counter goes up by one: of mismatches if the checksums differ, of agreements if not |
| Counting.StartClearsTheLog | server/combat_relay_server.py:286-292 | whoever is told START has an empty log and keeps its lap and last tick; where a JOIN raises, the one that waited has lost its log and the caller has not |
| Counting.AcceptMeans | server/combat_relay_server.py:161-181 | a caller is admitted exactly while fewer than 64 live and fewer than eight of them are from its address; it comes last, new, and nobody else is touched |
| Verdicts.RepairedClients | server/combat_relay_server.py:291-292 | used clients are compared at equal ticks if and only if their first reports fall in the same rebuilt lap |
| Verdicts.RepairedClientsAreNotCompared | server/combat_relay_server.py:291-292 | for one pair of reports: a client from a match that ended in lap 1 and a new one report different checksums for one tick and the relay says nothing |
| Silence.NeverCompared | server/combat_relay_server.py:345-355 | of reports made in lockstep, when the two first ones fall in different rebuilt laps, every single one is unpaired |
| Conversation.StampNearReceived | src/cbinput.inc:107-118 | in every reachable state the next record a console writes is stamped at most three past what it has received, and that was sent |
| Conversation.MoveTaken | src/cbnet.inc:294-335 | every move keeps that the stream holds the last of what its sender wrote, and that the receiver knows nothing newer than what it has taken off it |
| Conversation.ConsolesInLockstep | src/cbinput.inc:107-118 | in every timely run from power-up, in every order in which the relay hears each record after it is written and before it is read, no console reports more than three ticks past what was heard from the other |
| Conversation.RepairedMatchIsSilent | server/combat_relay_server.py:291-292 | so a whole match of two consoles, between clients in different laps and whatever the delays, is never compared |
| Verdicts.LogGrows | server/combat_relay_server.py:345-355 | an unpaired report leaves at most eight entries; a paired one keeps its own and takes one of the partner's |
| Verdicts.SecondReporterGrows | server/combat_relay_server.py:347-354 | for every n, n ticks reported second leave a log of n entries |
| Relay.Oldest | server/combat_relay_server.py:282-283 | the client found is one of the candidates, and no candidate was born before it |
| Relay.OnHelloKeeps | server/combat_relay_server.py:228-266 | a HELLO loses no client, keeps every partner a known other client, and touches no receive buffer |
| Relay.HandleKeeps | server/combat_relay_server.py:204-225 | so does every frame, whoever sends it, alive or dropped |
| RelayRuns.ServiceIsSteps | server/combat_relay_server.py:184-202 | the loop that serves a buffer is a run of single-frame steps |
| RelayRuns.ReceiveIsSteps | server/combat_relay_server.py:407-416 | a readable socket is such a run: bytes and the loop, or, at its end, a drop |
| RelayRuns.ServiceLeavesPartial | server/combat_relay_server.py:184-202 | what the Python loop leaves a live client is part of one frame, at most 200 bytes |
| CSpec.CServiceLeavesPartial | server/c/src/combat-relay.c:682-727 | so does the C loop, so the next receive of 4096 fits the array and the branch marked unreachable there is; nobody else's buffer is touched |
| RelayRuns.FreeNameIsGood | server/combat_relay_server.py:255-263 | the name found is free and well formed, keeps the first seven characters asked for, and is the name asked for exactly when that was free |
| Naming.WellFormedIff | server/combat_relay_server.py:228-259 | a HELLO is well formed exactly when it speaks protocol 2, comes from a television the server knows and carries two to eight letters or digits of either case between NULs and spaces |
| Naming.HelloClaims | server/combat_relay_server.py:255-263 | such a HELLO claims those characters in capitals where nobody has that name |
| Naming.CapitalsOnce | server/combat_relay_server.py:255 | there is one such name |
| Naming.HelloRefused | server/combat_relay_server.py:228-259 | any other HELLO drops the client and gives it no name |
| RelayRuns.SearchCanEnd | server/combat_relay_server.py:260-261 | some draws end the search if and only if the name is free, or its first seven characters are with some digits after them, eight characters at most |
| RelayRuns.NamesAreUnique | server/combat_relay_server.py:262-263 | whatever anyone sends, each live named client owns its name in the table, so no two share one |
| Roster.RosterIsExact | server/combat_relay_server.py:262-263 | under conforming traffic the table holds the names of the live named clients and no others, so its length, which the Lobby is told, is how many there are |
| Roster.HelloKeepsExact | server/combat_relay_server.py:228-266 | a HELLO keeps it so if and only if it is refused or comes from a live client without a name |
| RelayRuns.PartnersAreMatched | server/combat_relay_server.py:288-290 | under conforming traffic partner is a symmetric irreflexive matching of live clients with roles 0 and 1 |
| Joining.JoinKeepsTheMatching | server/combat_relay_server.py:279-304 | whoever asks, a JOIN keeps the matching if and only if nobody waits, or the caller is live, named and without a partner |
| Joining.HelloKeepsTheMatching | server/combat_relay_server.py:228-266 | a HELLO, the first or a later one, keeps it if and only if it is refused, nobody else waits, or the caller is live and without a partner |
| Joining.JoinBreaksTheMatching | server/combat_relay_server.py:301-304 | conforming traffic from an empty server, then one JOIN and one BYE: the matching is lost at the JOIN, and after the BYE a live client's partner lives no longer |
| RelayRuns.OldestIsFirst | server/combat_relay_server.py:279-283 | the partner found is the first waiting client in accept order |
| FifoProofs.HandleObeys | server/combat_relay_server.py:204-225 | what a frame adds to any client's transmit buffer, and what it does to its link, is what its note says |
| FifoProofs.StartedMeans | server/combat_relay_server.py:286-295 | a client is started only while alive and unpaired, and its opponent is started in the same step with the same seed |
| FifoProofs.LinkStep | server/combat_relay_server.py:204-225 | every step of conforming traffic keeps each client's account with its opponent |
| Pipe.RelayIsFifo | server/combat_relay_server.py:204-212 | since START a live console has been sent its partner's game frames, all of them, in order, padded, and one PEER_LEFT exactly when the partner is gone |
| Pipe.ReceivedIsPrefix | server/combat_relay_server.py:435-441 | under any partial sends, what its socket took since START is a prefix of that |
| Pipe.RecordsArriveAsSent | server/combat_relay_server.py:205-212 | while the partner sends eight-byte records, the bytes sent on are the bytes it sent since its own START |
| Pipe.PartnersShareTheStart | server/combat_relay_server.py:284-295 | partners were told complementary roles and the same seed, delay and variation |
| Handing.StartIsExact | server/combat_relay_server.py:284-295 | in every state conforming consoles bring the relay to, a client with a partner was sent fifteen bytes: role 0 if it waited and 1 if it came, the seed drawn when the two were matched, low byte first, delay, variation, and its partner's name padded with NULs |
| Answers.LobbyIsListed | server/combat_relay_server.py:306-315 | a LOBBY says how many follow, at most eight, then the first live named clients, each at its rank in accept order, with its name and whether it has a partner |
| Answers.FramesAreAnswered | server/combat_relay_server.py:204-225 | by type byte: 6 to 9 reach the partner with at least six payload bytes, 2 is answered with the lobby, 12 with 13, 10 drops, and unknown types change nothing |
| Answers.DropSaysGoodbye | server/combat_relay_server.py:363-382 | a dropped client leaves the line, the name that is its own is free, its partner is told eight bytes and has none, and nothing else changes; dropping it again changes nothing at all |
| Meeting.TwoConsolesMeet | server/combat_relay_server.py:271-299 | conforming consoles do bring the relay to a match: two that connect and say HELLO become partners |
| Buffers.EatenIsReceived | server/c/src/combat-relay.c:694-726 | every frame byte taken from a client was left over or received since |
| Buffers.TxGrowth | server/c/src/combat-relay.c:109-119 | between flushes, whoever sends and whatever, a buffer grows by at most 75/2 of its client's frame bytes, 15/2 of everyone else's that told it something (four times, in conforming traffic), and eight for each partner lost without a BYE |
| Buffers.TxInOneTurn | server/c/src/combat-relay.c:102-121 | from within the backlog, one turn of the event loop leaves at most 226,636 bytes and, for each other client that told it something, 17,192 in conforming traffic and 32,228 in any; with two at most, or one, it is below the array's size |
| Buffers.CapIsExact | server/c/src/combat-relay.c:509-523 | between flushes, by whatever steps, the C buffer ends as Python's if and only if Python's fits the array |
| Overflow.TheCapCanBePassed | server/c/src/combat-relay.c:1309-1360 | there is conforming traffic, and one turn of the loop of at most one receive a client, in which a buffer grows from nothing past the array's size |
| Ear.StepHears | server/combat_relay_server.py:318-360 | whatever step any client causes, two partners' logs hear their own reports and nothing else |
| Ear.RelayHears | server/combat_relay_server.py:318-360 | while a match lasts the two logs are what their own reports make of them, over any other traffic |
| Ear.CountedMismatchIsReal | server/combat_relay_server.py:356-358 | when the relay's mismatch counter moves for fresh clients, two true reports of one tick differed |
| EndToEnd.StreamIsQueue | src/cbnet.inc:120-124 | encoded records are eight bytes each and a reader at every eighth byte sees them again |
| EndToEnd.ConsoleToConsole | server/combat_relay_server.py:204-212 | every whole frame a console's socket took since START is its partner's record of that number, or the one PEER_LEFT after the last |
| EndToEnd.RecordsAreFrames | src/cbnet.inc:115-178 | every record a reachable console sends is a sound eight-byte frame of a relayed type, and reads back as itself |
| EndToEnd.MatchBegins | src/cbsess.inc:230-249 | two partners both begin the match if the relay's delay is theirs and neither does otherwise; the one that came is then the guest and the one that waited is not, under one seed |
| EndToEnd.ConsolesStream | server/combat_relay_server.py:337-343 | the records of reachable consoles, interleaved in any way, are forward streams |
| EndToEnd.MismatchIsDivergence | server/combat_relay_server.py:355-358 | a mismatch on a record stamped k means the two simulations entering tick k - 2 differed |
| EndToEnd.CountedMismatchIsDivergence | server/combat_relay_server.py:355-358 | the same of the relay's own counter, among any number of other clients |
| PyRelay.Server.Drop | server/combat_relay_server.py:363-382 | in place, on connections that refer to each other, a drop is the drop of the model |
| PyRelay.Server.IdleOthers | server/combat_relay_server.py:268-279 | the idle clients but the caller, in accept order |
| PyRelay.Server.Eldest | server/combat_relay_server.py:282-283 | the first of the oldest |
| PyRelay.Server.TryPair | server/combat_relay_server.py:271-299 | pairing in place is the model's; for a caller without a name, links, roles and the cleared log up to the exception |
| PyRelay.Server.Raise | server/combat_relay_server.py:288-295 | what an unnamed caller's pairing has assigned when it raises |
| PyRelay.Server.LogCrc | server/combat_relay_server.py:318-360 | logging a checksum, with its eviction loop, is the model's |
| PyRelay.Server.Register | server/combat_relay_server.py:260-266 | the name search as far as the draws given go, the table and the pairing after it |
| PyRelay.Server.OnHello | server/combat_relay_server.py:228-266 | every refusal and the acceptance of a HELLO |
| PyRelay.Server.SendLobby | server/combat_relay_server.py:306-315 | the first eight named clients in accept order, with their state |
| PyRelay.Server.Handle | server/combat_relay_server.py:204-225 | one frame in place is one frame of the model |
| PyRelay.Server.Service | server/combat_relay_server.py:184-202 | the framing loop, dropped clients included |
| PyRelay.Server.Receive | server/combat_relay_server.py:407-416 | a readable socket: its end, or bytes and the loop |
| PyRelay.Server.Flush | server/combat_relay_server.py:435-449 | one partial send and the backlog limit on what is left |
| PyRelay.Server.Accept | server/combat_relay_server.py:161-181 | full, crowded from one address, or one more client at the end of the line |
| PyRelay.OldestIs | server/combat_relay_server.py:282-283 | min keeps the first of the smallest |
| CTables.CrcTable.Lookup | server/c/src/combat-relay.c:453-459 | the scan finds the first entry of a key |
| CTables.CrcTable.Set | server/c/src/combat-relay.c:463-475 | a known key keeps its place, a new one is appended, a full table loses its youngest |
| CTables.CrcTable.DelAt | server/c/src/combat-relay.c:477-482 | the memmove removes one entry and keeps the order |
| CTables.CrcTable.Age | server/c/src/combat-relay.c:986-987 | the oldest go until eight are left |
| CTables.CReportIsReport | server/c/src/combat-relay.c:978-1000 | on any log that fits, C and Python agree on a report if and only if the key is known or an entry is free |
| CTables.SixteenIsReached | server/c/src/combat-relay.c:470-471 | the branch marked unreachable is reached, and then C drops what Python keeps |
| CTables.OrderTable.Add | server/c/src/combat-relay.c:385-389 | appends, or does nothing when full |
| CTables.OrderTable.Del | server/c/src/combat-relay.c:391-401 | removes the slot and keeps accept order |
| CTables.NameTable.Taken | server/c/src/combat-relay.c:405-411 | whether the dict has the name |
| CTables.NameTable.Set | server/c/src/combat-relay.c:416-434 | the dict's assignment, or, full, the same after losing its oldest name |
| CTables.NameTable.DelIfIs | server/c/src/combat-relay.c:437-449 | the name goes only if this very occupant of the slot claimed it |
| CTables.TxBuffer.Send | server/c/src/combat-relay.c:509-523 | an append, or a buffer that counts as full, taking in what the array holds |
| CRelay.Slot.Send | server/c/src/combat-relay.c:509-523 | the same of a slot's own array: what is stale beyond the buffer becomes part of it when it counts as full |
| CTables.TxBuffer.Cut | server/c/src/combat-relay.c:557-559 | what was sent leaves, the rest keeps its order |
| CRelay.Server.Drop | server/c/src/combat-relay.c:1005-1039 | on slots and bare indices, into bounded buffers, a drop is the drop of CSpec |
| CRelay.Server.FindWaiting | server/c/src/combat-relay.c:889-897 | one pass in accept order with a strict comparison finds Python's partner |
| CRelay.Server.TryPair | server/c/src/combat-relay.c:882-929 | pairing on slots, a caller without a name included, START sent into bounded buffers |
| CSpec.TryPairClipped | server/c/src/combat-relay.c:882-929 | C and Python pair alike, but for what no longer fits a buffer, if and only if the caller is named or nobody waits |
| CRelay.Server.SendLobby | server/c/src/combat-relay.c:931-946 | the LOBBY bytes Python sends, through slot reuse, into a bounded buffer |
| CRelay.Server.LogCrc | server/c/src/combat-relay.c:962-1001 | logging on the bounded tables of two slots |
| CSpec.LogCrcClipped | server/c/src/combat-relay.c:962-1001 | the two log a checksum alike if and only if the table has room or knows the key, whatever the buffers hold |
| CRelay.Server.CleanName | server/c/src/combat-relay.c:828-835 | the trimming and upper-casing loops make the name Python's calls make |
| CRelay.Server.Register | server/c/src/combat-relay.c:852-873 | the search of at most a thousand draws, a drop beyond it, and the oldest name lost when the table is full |
| CRelay.Server.OnHello | server/c/src/combat-relay.c:778-874 | every refusal and the acceptance of a HELLO |
| CRelay.Server.Handle | server/c/src/combat-relay.c:737-776 | one frame on slots, saturated buffers and the name a full table loses included |
| CRelay.Server.Search | server/c/src/combat-relay.c:852-865 | finds the name Python's loop finds within a thousand draws, or says there was none |
| CRelay.Server.Service | server/c/src/combat-relay.c:703-727 | the framing loop on a slot, dropped occupants included, whatever the table of names loses on the way |
| CRelay.Server.Receive | server/c/src/combat-relay.c:661-727 | the receive with its test against the array, and the loop |
| CRelay.Server.Flush | server/c/src/combat-relay.c:533-567 | one partial send and the backlog limit, as CSpec has them |
| CSpec.CServiceIsSteps | server/c/src/combat-relay.c:703-727 | a whole buffer is a run of single-frame steps of the C relay |
| CSpec.CHandleIsHandle | server/c/src/combat-relay.c:737-776 | a frame does in C what it does in Python if and only if it meets none of a full checksum table with a new key, an unnamed JOIN while somebody waits, a search of more than a thousand draws, a full table of names, a transmit buffer without room for what the frame has its client told |
| CSpec.CActIsDo | server/c/src/combat-relay.c:509-567 | the same if and only if for receives, drops, flushes and timeouts; a receive never overflows its array |
| CSpec.CHandleHolds | server/c/src/combat-relay.c:463-475 | whatever the frame, no checksum table holds more than sixteen entries or a key twice, and no transmit buffer more than its array |
| CSpec.CDoIsDo | server/c/src/combat-relay.c:612-659 | and for arrivals, which must find a slot no dead client still holds, and sweeps, which must leave no index to a stranger: each step of the C relay is Python's if and only if its guard holds |
| CSpec.RelinkedIff | server/c/src/combat-relay.c:1041-1049 | a sweep leaves every client as it was if and only if no live client refers to a dead one |
| CSpec.CRunIsRun | server/c/src/combat-relay.c:1309-1376 | every run of the C relay, slots used again and sweeps included, in which no step meets a guard is the Python's run of the same events |
| CRelay.Server.Accept | server/c/src/combat-relay.c:612-659 | is the arrival of CSpec: Python's refusals, nothing while every slot is in use, otherwise a client no slot or table has known before, in the first free slot and at the end of the order |
| CRelay.Server.Reap | server/c/src/combat-relay.c:1041-1049 | is the sweep of CSpec: every dead slot is free again, and an index to a dead client denotes the next to sit there; every slot in use is still the client the Python has if and only if no live client referred to a dead one |
| CRelay.Server.Play | server/c/src/combat-relay.c:1309-1376 | any sequence of events, those that come too late ignored, is a run of CSpec, slot by slot and name by name, up to the first sweep that would leave an index to a stranger |
| CRelay.Server.StrangerInherits | server/c/src/combat-relay.c:1017-1024 | after the sweep, a slot that referred to a dead client refers to one that has never been, which whoever is seated there next will be |
| CSpec.MatchedNoneDangling | server/c/src/combat-relay.c:1017-1024 | conforming traffic leaves no live client referring to a dead one |

## Left out

- Combat itself, the kernel, collisions, TIA and RIOT: the game step is a parameter.
- Cycle budgets, bank switching, stack resets and byte placement; a frame may run any number of micro-steps.
- Mailbox registers, appkeys, text screens and endpoint strings; a READ or STATUS answer is an input.
- Sockets, selectors, epoll tags, clocks, signals and log lines; seeds, random digits, births and what a send took are inputs.
- The event loop's own order of sockets: the relay's steps interleave in every way the loop could choose, and more.
- The Lobby publishers, command lines, build tools and test rigs.
- Python's dict of sockets is a sequence in accept order, and its dicts of names and checksums are a map and an ordered list of entries.
- PyRelay.Server.Register: a search that has used up the digits given halts the model; Python would draw again.
- CRelay.Server.Service: a slot's receive buffer is the bytes it holds, and its transmit array a sequence of so many bytes (CTables.TxBuffer is the array form).
- CRelay.Server.Play: which sockets are ready and which clients are overdue are inputs; the class is not followed past a sweep that leaves an index to a stranger; generations are unbounded here and 32 bits there.
- Buffers.CapIsExact: what a C buffer past its capacity holds is said only as far as its length and its beginning.
- Ear.CountedMismatchIsReal: for clients whose logs start fresh; Verdicts.RepairedClients covers used ones.
- Simulation.StallIndependence: a console's simulation is undisturbed from outside; RepairHeals covers disturbed ones.
