# Verification of four MLAN components

The MLAN layer of the Wi-Fi driver keeps real protocol state in four components, the first of them with
a table of its own. This project models each
of them in Dafny in the form the C code has (classes with fields and arrays updated in place, loops
with invariants) and proves it against a small functional machine, whose properties are then proved
over all inputs and all runs.

* **Receive reordering** (`SerialNumbers`, `ReorderSpec`, `RxReorder`, `ReorderConservation`,
  `ReorderOrder`, `ReorderStartUp`, `ReorderModes`, `RxReorderRuns`). A flow is a window over 12-bit sequence numbers: a slot array rotated in place, a
  64-bit word that shadows it, a window start, a flush timer and mode flags. The specification is a map
  from unbounded sequence numbers to packets. The array code is proved to compute its steps; the map
  machine is proved to conserve packets over every run, and its delivery order is settled by an exact
  condition. The behaviour is that of section 10.24.7.6 of IEEE Std 802.11-2016.
* **The block-ack table** (`TableSpec`, `TableRuns`, `TableOrigins`, `TablePackets`, `RxTable`, `RxTableRuns`): one list of flows per
  interface, driven by ADDBA, DELBA, responses, timers, resume and cleanup.
* **A-MSDU aggregation and deaggregation** (`AmsduCodec`, `AmsduProperties`, `AmsduLayout`, `AmsduQueue`), byte by
  byte, with the in-place header shift; section 9.3.2.2 of IEEE Std 802.11-2016.
* **Radar handling** (`NonOccupancy`, `ChannelSearch`, `RadarSpec`, `RadarRuns`, `RadarPlan`,
  `RadarTiming`, `RadarHandler`, `RadarChannel`): the lazily expired list of channel timestamps, the two searches for a
  channel, and the re-entrant eleven-stage handler with the trace of its commands.
* **802.11d domain tables** (`DomainCodec`, `DomainProperties`, `DomainReading`, `DomainTable`, `DomainPowers`,
  `DomainScan`): the run-length codec of
  sub-bands (Country element, section 9.4.2.9 of IEEE Std 802.11-2016), and the channel table merged
  over a scan and sorted.

A call that hands a packet up or sends a command appends to a result or a trace. Locks are left out and
each function is one step; a timer firing is a step of its own. Random numbers, the clock, the answers of the
firmware and the set of active interfaces are parameters.

## What the proofs found

* Delivery is not always in order. When the window moves across the 4096 wrap the whole buffer is handed
  up, also packets past the new start. `ReorderOrder.EarlyReleaseExample` is such a run and
  `ReorderOrder.InOrderIffNeverEarly` the exact condition.
* The search over region tables does not reset its count of rejected entries. Should two tables ever match, an
  exhausted first one makes it look at a single entry of the second, and for tables of one length it then
  answers the wrong way round (`ChannelSearch.SecondTableUnchecked`).
* The comment on the broadcast of the channel-switch IE asks for five DTIM periods (mlan/mlan_11h.c:3939-3944);
  the code waits for four, between 400 and 3000 ms (`RadarTiming.IeLasts`).
* Deaggregation in place can change a later frame: moving the addresses of a subframe of at most two
  bytes up by eight bytes reaches into the next one. `AmsduProperties.HarmfulExample` is such a buffer
  and `AmsduProperties.InPlaceIffHarmless` the exact condition. The number of frames is never affected
  (`AmsduProperties.CountAgrees`).
* The start-up phase of a flow is meant to end after half a window of packets. Its counter is a byte, so
  for a window of 512 or more it lasts until a packet carries exactly the start of the window
  (`ReorderStartUp.StartUpLasts`).
* The comment in the radar handler says the new channel differs from the current one
  (mlan/mlan_11h.c:3757). It need not, whoever the run is started for. For an access point the test is
  skipped (lines 3764-3769): with no usable entry every access point is moved to channel 0, and the
  default channels ignore non-occupancy, so radar on 36 with 11h off moves the access point back to 36
  (`RadarChannel.DefaultChannelExample`), and likewise 6 off 5 GHz. For a station nothing is picked at all
  and the test only logs: without a fixed channel every access point is moved to channel 0
  (`RadarChannel.StationExample`, `RadarChannel.StationRunLeavesChannelIff`). A fixed channel can be the
  current one (`RadarChannel.FixedChannelExample`). `RadarChannel.RunLeavesChannelIff` is the exact
  condition over completed runs of both kinds, on the settings, tables and timestamps at their start, and
  `RadarChannel.MovesToZeroIff` the one for channel 0.

## Model

| member | source | states |
|---|---|---|
| SerialNumbers.SerialArithmetic | mlan/mlan_11n_rxreorder.c:904-1061 | for every window start 0..4096 and every 12-bit number, the branchy tests are arithmetic on the serial distance: drop exactly at 2048 or more, move exactly at the window size or more, new start puts the number into the last slot, slot index is the distance, and the follow-up test of the start-up phase holds exactly below size - 1 |
| SerialNumbers.UpwardIffNoWrap | mlan/mlan_11n_rxreorder.c:178-181 | the new start is numerically above the old one exactly when the move does not pass a multiple of 4096 |
| SerialNumbers.DataMove | mlan/mlan_11n_rxreorder.c:1012-1022 | a packet past the window moves the start to its number - size + 1, modulo 4096, for unbounded numbers too |
| SerialNumbers.BarMove | mlan/mlan_11n_rxreorder.c:1000-1022 | the shifted number of a block ack request makes the window start at the requested number, and the window moves exactly when that number is ahead by 1 .. 4096 - size |
| RxReorder.ShiftForgets | mlan/mlan_11n_rxreorder.c:204-209 | the array shifted left by k and filled with empty slots holds exactly the numbers that stay in the window |
| RxReorder.ShiftShadows | mlan/mlan_11n_rxreorder.c:211-216 | shifting the 64-bit word keeps bit i set exactly when slot i is occupied (windows up to 64) |
| RxReorder.PacketsAreRelease | mlan/mlan_11n_rxreorder.c:183-196 | emptying the first i slots hands up what the map machine releases for the first i numbers, in order |
| RxReorder.DispatchIsMove | mlan/mlan_11n_rxreorder.c:178-218 | the slot count computed from 12-bit starts empties what a move between unbounded numbers releases: all of the window when it crosses the wrap; a start of 4096 works as 0 |
| RxReorder.RunIsScan | mlan/mlan_11n_rxreorder.c:265-303 | emptying slots up to the first empty one and rotating is the scan of the map machine |
| RxReorder.LastIsLastSome | mlan/mlan_11n_rxreorder.c:374-388 | the last occupied slot is the last number held |
| RxReorder.TestsAreTarget | mlan/mlan_11n_rxreorder.c:960-1061 | data and block ack requests alike: the 12-bit tests drop, move and index exactly as the map machine's target on unbounded numbers says |
| RxReorder.FollowIsResync | mlan/mlan_11n_rxreorder.c:900-945 | the end of the start-up phase moves the unbounded start to just past the last number forwarded, in exactly the two cases of the source, also when `start_win` becomes 4096 |
| RxReorder.RxReorderTbl.constructor | mlan/mlan_11n_rxreorder.c:488-545 | a new entry is empty, starts at the SSN, is in its start-up phase and satisfies the invariant |
| RxReorder.RxReorderTbl.Rotate | mlan/mlan_11n_rxreorder.c:204-209 | the rotation loop leaves the old array shifted left by k, the vacated places empty |
| RxReorder.RxReorderTbl.DispatchSlots | mlan/mlan_11n_rxreorder.c:183-198 | the first k slots are handed up in order and emptied; the others stay |
| RxReorder.RxReorderTbl.DispatchUntilStartWin | mlan/mlan_11n_rxreorder.c:168-224 | the in-place rotation refines the move of the map machine: same packets up, same packets kept, word and start updated |
| RxReorder.RxReorderTbl.DispatchRun | mlan/mlan_11n_rxreorder.c:265-281 | exactly the run of occupied slots before the first empty one is handed up and emptied |
| RxReorder.RxReorderTbl.ScanAndDispatch | mlan/mlan_11n_rxreorder.c:255-309 | refines the scan: the window start ends at the next missing number, below 4096 |
| RxReorder.RxReorderTbl.FindLastSeqNum | mlan/mlan_11n_rxreorder.c:374-388 | the index found is occupied and nothing is held behind it; -1 when nothing is held |
| RxReorder.RxReorderTbl.StartFlushData | mlan/mlan_11n_rxreorder.c:397-417 | refines the flush: afterwards nothing is held |
| RxReorder.RxReorderTbl.FlushTimerExpires | mlan/mlan_11n_rxreorder.c:424-437 | the timer leaves a pending flush and keeps the invariant |
| RxReorder.RxReorderTbl.FlushWork | mlan/mlan_11n_rxreorder.c:1483-1486 | carries out a pending flush exactly as the map machine does |
| RxReorder.RxReorderTbl.Store | mlan/mlan_11n_rxreorder.c:1041-1061 | the packet gets its slot and its bit |
| RxReorder.RxReorderTbl.UpdateTimer | mlan/mlan_11n_rxreorder.c:1076-1090 | with a window of at most 64 the timer runs afterwards exactly when something is held |
| RxReorder.RxReorderTbl.MoveWindow | mlan/mlan_11n_rxreorder.c:1004-1027 | refines the window move; the slot the packet will get lies inside the array |
| RxReorder.RxReorderTbl.Take | mlan/mlan_11n_rxreorder.c:1004-1071 | refines admission: move, duplicate test, store, scan; fails exactly for a duplicate |
| RxReorder.RxReorderTbl.ForceWindow | mlan/mlan_11n_rxreorder.c:948-958 | refines the forced flush: everything held goes up and a packet restarts the window at its own number |
| RxReorder.RxReorderTbl.Settle | mlan/mlan_11n_rxreorder.c:948-1090 | refines everything after the start-up phase, and leaves the timer running exactly when something is held |
| RxReorder.RxReorderTbl.FollowLastSeen | mlan/mlan_11n_rxreorder.c:900-945 | refines the resynchronisation after the start-up phase |
| RxReorder.RxReorderTbl.ForwardStartUp | mlan/mlan_11n_rxreorder.c:880-898 | a packet of the start-up phase is forwarded around the window and remembered, unless it repeats the last one |
| RxReorder.RxReorderTbl.CheckStart | mlan/mlan_11n_rxreorder.c:871-947 | refines the start-up phase: which packets go around the window, which repeat is dropped, and what the window is afterwards |
| RxReorder.RxReorderTbl.Receive | mlan/mlan_11n_rxreorder.c:856-1093 | one packet, block ack request or firmware-drop mark, in every mode: slot array, word, 12-bit start, flags and packets handed up are those of the map machine; keeps the invariant, in particular that nothing held is ever without a running timer or a pending flush (windows up to 64) |
| RxReorder.RxReorderTbl.Drain | mlan/mlan_11n_rxreorder.c:331-337 | all packets of the window go up before the entry goes |
| RxReorderRuns.TakeInput | mlan/mlan_11n_rxreorder.c:424-1093 | one input takes the step of the map machine; a timer expiry happens only while the timer runs, for windows of at most 64 exactly when something is held and no flush is pending |
| RxReorderRuns.RunInputs | mlan/mlan_11n_rxreorder.c:424-1093 | refinement over every run: after any sequence of packets, requests, expiries, flushes and mode changes the slot array holds, and the calls handed up, exactly what the run of the map machine does |
| ReorderSpec.FlushEmpties | mlan/mlan_11n_rxreorder.c:397-417 | a flush leaves nothing held and starts the window after the last number held |
| ReorderSpec.ReceiveWellFormed | mlan/mlan_11n_rxreorder.c:856-1074 | every packet keeps: all numbers held lie inside the window, its first number is missing, nothing is held in the start-up phase, no flush stays pending |
| ReorderStartUp.StartUpStep | mlan/mlan_11n_rxreorder.c:871-947 | a packet the start-up phase looks at ends it exactly when it carries the start or the byte counter has reached half the window; otherwise start and phase stay and only the counter moves |
| ReorderStartUp.StartUpLasts | mlan/mlan_11n_rxreorder.c:871-947 | exactly how long the phase lasts, over every run of a new flow: until a packet it looks at carries the start, or until half a window of them was seen, but never the latter for a window of 512 or more, whose half the byte counter (mlan/mlan_main.h:1505) cannot reach |
| ReorderModes.RefusedIff | mlan/mlan_11n_rxreorder.c:856-1074 | exactly which packets are refused, in every mode, in the fields of the flow: in the start-up phase those that repeat the number before them; otherwise those 2048 or more ahead of the window they meet, or held already; a forced restart and the way around the window for A-MSDUs refuse nothing |
| ReorderModes.StartUpForwards | mlan/mlan_11n_rxreorder.c:880-898 | a packet of the start-up phase is refused if and only if it repeats the last number; any other goes up at once under its 12-bit number (a block ack request hands up nothing) and is remembered; nothing else changes but the counter |
| ReorderModes.StartUpRun | mlan/mlan_11n_rxreorder.c:880-898 | over every run that stays in the phase exactly the data packets that do not repeat the packet before them go up, each once, in order of arrival; the latest A-MSDU setting decides which packets count |
| ReorderModes.StartUpEnds | mlan/mlan_11n_rxreorder.c:871-945 | the packet that ends the phase meets the same flow with the window where it was, or just past the last number seen: in the window when that one is inside it, behind when the packet lies between it and the start |
| ReorderModes.UnnegotiatedGoesUp | mlan/mlan_11n_rxreorder.c:861-865 | an A-MSDU on a flow without them is never refused, goes up at once and changes nothing |
| ReorderModes.ForcedRestart | mlan/mlan_11n_rxreorder.c:948-1071 | with `force_no_drop` everything held goes up, then the packet itself, under the next number past the window that ends in its 12 bits, and the window starts behind it; a block ack request moves the emptied window to its number |
| ReorderModes.AheadMoves | mlan/mlan_11n_rxreorder.c:1004-1071 | a packet past the window, by less than half the number space and not across the wrap: everything before the first number missing at or after its own less size - 1 goes up, itself included when nothing is missing |
| ReorderModes.FlushWorkSays | mlan/mlan_11n_rxreorder.c:397-417 | the deferred work hands up everything held, in order, exactly when a flush is pending, and starts the window behind the last number held |
| ReorderModes.FlushComesFirst | mlan/mlan_11n_rxreorder.c:857-860 | a flush pending when a packet comes is carried out before it, and the packet meets the emptied window |
| ReorderModes.RunKeeps | mlan/mlan_11n_rxreorder.c:837-1093 | over every run in every mode each data packet goes up or is held exactly as often as it came without being refused, refusal being the condition on fields above |
| ReorderConservation.RunWellFormed | mlan/mlan_11n_rxreorder.c:837-1093 | over every run of packets, requests, timer expiries, flushes and mode changes the first number of the window is the next one missing and all numbers held lie inside it |
| ReorderConservation.StepConserves | mlan/mlan_11n_rxreorder.c:837-1093 | one step: packets handed up plus packets held are packets held before plus the packet accepted, counted with their 12-bit numbers |
| ReorderConservation.RunConserves | mlan/mlan_11n_rxreorder.c:837-1093 | conservation over every run in every mode: each packet goes up or is held exactly as often as it was accepted with success; failed packets, block ack requests and firmware-drop marks never go up |
| ReorderConservation.RunDelivers | mlan/mlan_11n_rxreorder.c:397-437 | after any run followed by a timer expiry and the deferred work nothing is held, and each packet went up exactly as often as it was accepted |
| ReorderOrder.ReceiveSteady | mlan/mlan_11n_rxreorder.c:960-1071 | past the start-up phase a packet is refused exactly when it is 2048 or more ahead modulo 4096 or a duplicate, and then nothing changes |
| ReorderOrder.AdmitEffect | mlan/mlan_11n_rxreorder.c:1004-1071 | a move that does not cross the wrap: the window ends at the first missing number at or after its target, and exactly what lies before goes up, ascending |
| ReorderOrder.AdmitCrossing | mlan/mlan_11n_rxreorder.c:178-181 | a move across the wrap hands up everything held, wherever the new start is |
| ReorderOrder.StepOrder | mlan/mlan_11n_rxreorder.c:960-1071 | a steady step hands up ascending numbers from the window on; all of them lie before the new start if and only if the step does not cross the wrap with data at or past the new start |
| ReorderOrder.RunInOrder | mlan/mlan_11n_rxreorder.c:960-1071 | in-order, at-most-once delivery over every steady run without such a step |
| ReorderOrder.InOrderIffNeverEarly | mlan/mlan_11n_rxreorder.c:178-181 | exact condition: a steady run is in order at every point, whatever data packet comes next, if and only if no step of it crosses the wrap with data held at or past the new start |
| ReorderOrder.EarlyReleaseExample | mlan/mlan_11n_rxreorder.c:178-181 | from a new entry, a run of four inputs that delivers 4097 before 4096 |
| ReorderOrder.BlockAckRequest | mlan/mlan_11n_rxreorder.c:1004-1071 | a block ack request ahead of the start, not across the wrap, hands up everything before its number and the run after it; the window waits for the first missing number at or after it |
| ReorderOrder.RunGapFree | mlan/mlan_11n_rxreorder.c:1033-1071 | whatever the order of arrival, while no packet runs ahead of the window exactly the numbers the window passed go up, each once, without a gap |
| TableSpec.ResponseAnnouncesWindow | mlan/mlan_11n_rxreorder.c:760-778 | the response announces exactly the window granted, the smaller of the request and `rx_win_size`, or that limit when none is requested; same TID and policy bit; A-MSDU only when both sides have it |
| TableSpec.FieldsOfParam | mlan/mlan_11n_rxreorder.c:737-762 | a parameter set is 64 times its window, 4 times its TID, and the policy and A-MSDU bits |
| TableSpec.DeleteFit | mlan/mlan_11n_rxreorder.c:320-365 | after deletion no entry has the key, and keys stay unique |
| TableSpec.CreateFit | mlan/mlan_11n_rxreorder.c:449-549 | creation, also over an existing entry, keeps keys unique and TIDs valid |
| TableRuns.RunTableConserves | mlan/mlan_11n_rxreorder.c:837-1093 | over every run of packets, ADDBA, responses, DELBA, timers, flushes, resume and cleanup: at most one entry per (TID, transmitter), and each packet goes up or is held exactly as often as accepted, through deletion and re-creation |
| TableRuns.DeleteConserves | mlan/mlan_11n_rxreorder.c:320-365 | an entry is removed only after all it held went up |
| TableRuns.AddbaCreates | mlan/mlan_11n_rxreorder.c:706-791 | an accepted request leaves one entry for its key: empty, starting at the SSN, in its start-up phase, with the window announced and the number remembered |
| TableOrigins.StepWindow | mlan/mlan_11n_rxreorder.c:706-791 | one event gives the key the window its response announces, if it accepts a request for it; removes the entry, if it ends the flow (negative response, DELBA, cleanup); and leaves entry and window alone otherwise |
| TableOrigins.EntryIffLatestAccepts | mlan/mlan_11n_rxreorder.c:706-791 | at every point of every run a key has an entry if and only if the latest event that concerns it accepted a request, and the window is the one the response to that very request announced, between 1 and the limit then in force |
| TableOrigins.StepOfKey | mlan/mlan_11n_rxreorder.c:320-1492 | what one event does to a key: it grants or ends its flow, or is at most one input of that flow: a packet, the A-MSDU setting of a confirmed response, a timer, the deferred work or a resume; no other key is touched |
| TableOrigins.FlowIsItsOwnRun | mlan/mlan_11n_rxreorder.c:320-1492 | flows do not meet: at every point of every run the entry of a key is the flow that the latest accepted request started, after a run on the inputs of that key alone that came since, and it is complete exactly when the response was confirmed since |
| TablePackets.WithoutWindow | mlan/mlan_11n_rxreorder.c:847-855 | a packet without an entry, or with a window of one, is never refused, goes up at once and changes no entry |
| TablePackets.WithWindow | mlan/mlan_11n_rxreorder.c:856-1093 | any other packet is refused exactly when its flow refuses it, and its flow and what goes up are those of that flow alone |
| TablePackets.RunTableKeeps | mlan/mlan_11n_rxreorder.c:837-1093 | over every run of the table each data packet is delivered or held exactly as often as it came without being refused: without a window never, else by the condition on the fields of its flow |
| TablePackets.TimerThenFlush | mlan/mlan_11n_rxreorder.c:424-437 | after a timer of a key and the deferred work its flow holds nothing and starts behind the last number held |
| TablePackets.DeleteHandsUp | mlan/mlan_11n_rxreorder.c:320-337 | an entry that goes hands up everything it holds, in order |
| RxTable.RxPrivate.GetRxReorderTbl | mlan/mlan_11n_rxreorder.c:565-593 | finds the first entry with the key, or none |
| RxTable.RxPrivate.AddBastream | mlan/mlan_11n_rxreorder.c:658-695 | a request is answered exactly when no scan runs and no entry of its key is still being set up |
| RxTable.RxPrivate.ReceivePacket | mlan/mlan_11n_rxreorder.c:847-860 | without an entry, or with a window of one, a packet goes up at once; otherwise it takes the reorder step of its entry and no other entry changes |
| RxTable.RxPrivate.DeleteEntry | mlan/mlan_11n_rxreorder.c:320-365 | the whole window goes up, then exactly this entry leaves the list |
| RxTable.RxPrivate.CreateRxReorderTbl | mlan/mlan_11n_rxreorder.c:449-549 | an invalid TID changes nothing; otherwise the old entry is drained and a new one appended, with the last sequence number remembered for the station, else for the interface, else 0, by role and mode |
| RxTable.RxPrivate.AddbaRspGen | mlan/mlan_11n_rxreorder.c:706-791 | declines exactly for a bad or rejected TID, a station in a WPS session, or an access point with more than 128 bridged packets; the response and the new table are those of the specification |
| RxTable.RxPrivate.RetAddbaResp | mlan/mlan_11n_rxreorder.c:1182-1239 | success completes the entry and settles its A-MSDU flag, failure deletes it |
| RxTable.RxPrivate.DeleteBastream | mlan/mlan_11n_rxreorder.c:1119-1137 | a DELBA ends the receive flow exactly when it was received from the initiator or sent by the recipient |
| RxTable.RxPrivate.CleanupReorderTbl | mlan/mlan_11n_rxreorder.c:1290-1307 | every entry is drained, oldest first, the list is empty and the sequence numbers remembered for the interface are reset |
| RxTable.RxPrivate.CleanupStation | mlan/mlan_11n_rxreorder.c:1392-1405 | the entries of one station are drained and removed, TID by TID |
| RxTable.RxPrivate.RxbaSyncOne | mlan/mlan_11n_rxreorder.c:1350-1374 | one drop mark for each bit set, numbered modulo 4096, in order |
| RxTable.RxPrivate.RxbaSyncEvent | mlan/mlan_11n_rxreorder.c:1317-1383 | the elements are handled in order up to the first of another type, without an entry, or for a flow that resumes |
| RxTable.RxPrivate.FlushRxReorderTbl | mlan/mlan_11n_rxreorder.c:1467-1492 | the pending flushes of all entries are carried out, in list order |
| RxTable.RxPrivate.SetNoDropFlag | mlan/mlan_11n_rxreorder.c:1415-1437 | sets the flag on every entry and changes nothing else |
| RxTable.RxPrivate.TimerExpires | mlan/mlan_11n_rxreorder.c:424-437 | the expiry is the step of its entry alone |
| RxTableRuns.MarkOfBit | mlan/mlan_11n_rxreorder.c:1350-1374 | the marks of a bitmap: one for each bit set, in order, bit k for the number k behind the first one, modulo 4096 |
| RxTableRuns.ReportStep | mlan/mlan_11n_rxreorder.c:1328-1349 | a report goes on while its elements are of its type, for a flow that is there and does not resume, and ends for good at the first other one |
| RxTableRuns.ReportIsRun | mlan/mlan_11n_rxreorder.c:1317-1383 | a report of dropped packets is a run of drop-mark events only |
| RxTableRuns.Serve | mlan/mlan_11n_rxreorder.c:424-1492 | each request to the code does to the array table what events of the table specification, which the request determines up to the answer and the window granted, do to the specified table |
| RxTableRuns.ServeAll | mlan/mlan_11n_rxreorder.c:424-1492 | refinement over every run of the whole table: after any sequence of packets, requests, answers, DELBAs, timers, flushes, reports and cleanups the entries and the packets handed up are those of a run of events, so what holds over all such runs holds of the code |
| AmsduCodec.FormAmsduPkt | mlan/mlan_11n_aggr.c:59-99 | writes exactly one subframe and no byte outside it; the size is a multiple of four with fewer than four bytes of padding |
| AmsduCodec.GetNumAggrPkts | mlan/mlan_11n_aggr.c:336-394 | for every buffer: the number of subframes reachable by their length fields, and for an access point whether any subframe looked at is for many receivers or for one of its stations |
| AmsduCodec.RewriteHeader | mlan/mlan_11n_aggr.c:520-530 | the in-place header shift, or the cleared length field, and where the frame then lies |
| AmsduCodec.DeaggregatePkt | mlan/mlan_11n_aggr.c:459-630 | for every buffer: the frames, the memory left behind and the error are those of the reader's specification; an oversized total changes nothing |
| AmsduLayout.SubframeBytes | mlan/mlan_11n_aggr.c:66-88 | the bytes of a subframe written: addresses, length with the most significant byte first, the LLC/SNAP header, type and payload |
| AmsduLayout.RoundsUp | mlan/mlan_11n_aggr.c:514-516 | the next subframe starts at the least multiple of four, from this one, at or past the end of this one |
| AmsduLayout.HeadersSay | mlan/mlan_11n_aggr.c:501-536 | the headers a reader comes to: the first at the front, each next one that multiple further, all within the aggregate |
| AmsduLayout.CountsHeaders | mlan/mlan_11n_aggr.c:358-394 | for every buffer the counting pass counts, and the reader yields a frame for, exactly the headers whose length makes sense; an error is reported if and only if there is one whose length does not |
| AmsduLayout.ReadsHeaders | mlan/mlan_11n_aggr.c:501-531 | the frames of a buffer are the Ethernet frames at its headers, in order, given byte by byte: LLC/SNAP header removed, or a zero type when there is none |
| AmsduLayout.RewritesBytes | mlan/mlan_11n_aggr.c:520-530 | rewriting moves both addresses up by eight bytes, or clears the length field, and changes no other byte |
| AmsduLayout.ForwardsIff | mlan/mlan_11n_aggr.c:361-380 | an access point has to forward exactly when some header it comes to, sound or not, has a group address or one of its stations as the destination |
| AmsduProperties.CountAgrees | mlan/mlan_11n_aggr.c:358-394 | for every buffer the counting pass announces exactly the number of frames the parsing pass yields, although that one writes into the buffer |
| AmsduProperties.SubframeReads | mlan/mlan_11n_aggr.c:501-531 | reading one written subframe gives the frame back |
| AmsduProperties.RoundTrip | mlan/mlan_11n_aggr.c:501-630 | for every list of frames that fit, whatever the pad bytes: deaggregating the aggregate hands up exactly those frames in order |
| AmsduProperties.InPlaceIffHarmless | mlan/mlan_11n_aggr.c:520-530 | exact condition: the frames handed up are those of the buffer as received if and only if no subframe of at most two bytes with an LLC/SNAP header is followed by a frame whose first four address bytes differ from the ones moved over them |
| AmsduProperties.HarmfulExample | mlan/mlan_11n_aggr.c:520-530 | a buffer of two subframes where the second frame goes up with another address |
| AmsduQueue.PaddedIsTotal | mlan/mlan_11n_aggr.c:952-953 | taking the last pad off gives the length of the aggregate |
| AmsduQueue.GreedyIsTaken | mlan/mlan_11n_aggr.c:896-897 | there is one greedy number of frames for a budget |
| AmsduLayout.TakenIsMost | mlan/mlan_11n_aggr.c:896-953 | an aggregate takes the most frames that fit: m frames are taken or fewer than taken if and only if m frames make an aggregate within the room, its last pad not counted |
| AmsduLayout.TotalIsRounded | mlan/mlan_11n_aggr.c:896-953 | in an aggregate every subframe but the last takes up a multiple of four bytes |
| AmsduQueue.RaList.Dequeue | mlan/mlan_11n_aggr.c:898-913 | the head leaves the queue and each counter falls by one |
| AmsduQueue.RaList.Fill | mlan/mlan_11n_aggr.c:896-953 | as many frames as fit, in order, are written; the queue and the three counters lose exactly those; the size without the last pad stays within the budget |
| AmsduQueue.RaList.AggregatePkt | mlan/mlan_11n_aggr.c:812-1017 | the finished aggregate with headroom never exceeds the smaller of `max_amsdu` and the buffer although padding comes after the check; it holds the frames consumed; the counters fall by their number, less one when the aggregate is put back at the head |
| AmsduQueue.FilledReadsBack | mlan/mlan_11n_aggr.c:896-953 | what an aggregation wrote, counting announces and deaggregation hands up: the frames consumed, in order |
| NonOccupancy.DfsState.AddDfsTimestamp | mlan/mlan_11h.c:1493-1537 | the stamp of the channel is replaced, or appended when there is none |
| NonOccupancy.DfsState.FindDfsTimestamp | mlan/mlan_11h.c:1432-1460 | finds the first stamp of the channel |
| NonOccupancy.DfsState.IsChannelUnderNop | mlan/mlan_11h.c:3159-3202 | answers from the stamp found; exactly when it is an expired radar stamp it is forgotten and the channel becomes usable; the difference of the 32-bit clock wraps |
| NonOccupancy.RunTracks | mlan/mlan_11h.c:1432-1537 | over every run of marks and queries: one stamp per channel, each the latest mark; a missing one had expired or never was |
| NonOccupancy.NopListIsClockRule | mlan/mlan_11h.c:3159-3202 | the lazily expired list refines the clock rule: under non-occupancy if and only if the latest mark is a radar event no older than the period |
| ChannelSearch.QueryChangesNoAnswer | mlan/mlan_11h.c:3187-3193 | forgetting an expired stamp changes the answer for no channel at that time |
| ChannelSearch.Probe | mlan/mlan_11h.c:1365-1406 | one table is probed as the specification says, with the tries carried over from a table before and counted in a byte, and the stamps that expire on the way forgotten |
| ChannelSearch.GetUapStartChannel | mlan/mlan_11h.c:1307-1412 | for any number of region tables: channel and remaining stamps are those of the specification, which does not reset the tries between tables |
| ChannelSearch.ProbeIsFirstUsable | mlan/mlan_11h.c:1365-1406 | from any random entry the probe of one table gives its first usable entry round the table, 0 when there is none, and changes no answer about any channel |
| ChannelSearch.StartChannelFinds | mlan/mlan_11h.c:1327-1409 | with at most one matching table: channel 6 off 5 GHz, 36 without 11h or a match whatever the stamps say, else the first usable entry of the table |
| ChannelSearch.SearchSoundAndComplete | mlan/mlan_11h.c:1350-1406 | for every random start: 0 if and only if no entry is usable, else a usable channel, never one under non-occupancy |
| ChannelSearch.StartChannelMayBeUsed | mlan/mlan_11h.c:1346-1406 | with one matching table, in the fields: 0 if and only if every entry is disabled, under non-occupancy, in need of radar detection while the handler chooses, or 165 outside the US on more than 20 MHz; otherwise the channel of an entry with none of these |
| ChannelSearch.SecondTableUnchecked | mlan/mlan_11h.c:1350-1408 | the tries are not reset between tables: when no entry of the first of two matching tables may be used, one entry of a second, no longer table is looked at; with equal lengths the answer is 0 when it may be used and its channel when it may not, with a shorter table always its channel |
| ChannelSearch.SearchLeavesChannel | mlan/mlan_11h.c:3753-3763 | once its channel was marked, a search through a region table never gives that channel |
| ChannelSearch.LowestNonDfs | mlan/mlan_11h.c:4318-4332 | finds an entry that is not DFS and not under non-occupancy exactly when there is one |
| ChannelSearch.SwitchNonDfsChan | mlan/mlan_11h.c:4274-4339 | for every sequence of random numbers: succeeds if and only if some entry is not DFS and not under non-occupancy, and gives such an entry |
| RadarRuns.HandleProgress | mlan/mlan_11h.c:3643-4182 | any call in a stage other than off strictly decreases (stages left, interfaces left) |
| RadarRuns.RunReached | mlan/mlan_11h.c:3643-4182 | every reachable state has its index in range and the interfaces active at the start, and calls made plus calls that can still come stay within 10 (n + 3) |
| RadarRuns.HandlerEnds | mlan/mlan_11h.c:3614-4192 | after 10 (n + 3) calls for n active interfaces the handler is off, whatever the calls, picks and command results |
| RadarPlan.HandleKeeps | mlan/mlan_11h.c:3806-4182 | every call issues the front of what was left to do: commands issued followed by commands left never change |
| RadarPlan.CompletedRunIsPlan | mlan/mlan_11h.c:3643-4182 | every completed run with every IE prepared, for an access point or a station, issues exactly the plan for the channel it settles on and leaves the stamps of its search: transmit disables first, the current channel enters non-occupancy before one is picked, each phase finished for all interfaces before the next; an access point picks by its search, a station picks nothing |
| RadarPlan.EachIntfOnce | mlan/mlan_11h.c:3643-4182 | every interface has its traffic stopped and started once; every access point is asked for its periods, stopped and started once, told to look for radar exactly when the new channel needs that and, unless the channel stays, moved once, to the new channel only; a station is disconnected exactly when connected; each DFS master gets and loses the channel-switch IE once |
| RadarTiming.IeLasts | mlan/mlan_11h.c:3829-3953 | a completed run broadcasts the IE once, for the longest of 400 ms and four DTIM periods of any interface, up to 3000 ms |
| RadarTiming.DetectsBeforeStart | mlan/mlan_11h.c:4092-4115 | an access point that moves to a channel in need of radar detection is told so just before it is started |
| RadarTiming.IesUpToFault | mlan/mlan_11h.c:3886-3992 | the call that adds the IE, and the one that takes it back, reach a DFS master exactly when neither its own IE nor that of an interface before it fails to be prepared, and the handler stays in the stage |
| RadarTiming.FirstStaFinds | mlan/mlan_11h.c:3720-3735 | the channel of a run started for a station is that of the first station of the list, or of the last interface |
| RadarTiming.NothingActive | mlan/mlan_11h.c:3648-3668 | with no interface active the handler is off at once and issues nothing |
| RadarPlan.PhaseOnce | mlan/mlan_11h.c:3643-4182 | a phase issues the command of each interface exactly once |
| RadarChannel.SearchLeavesIff | mlan/mlan_11h.c:1327-1406 | the search after marking gives a channel that is not 0 and not the current one if and only if: off 5 GHz the current one is not 6; without 11h or a matching table it is not 36; else some entry of the table is usable |
| RadarChannel.RunMoves | mlan/mlan_11h.c:4049-4070 | a completed run moves an access point to the channel it settled on exactly once and to no other channel, or nowhere when the channel is to stay |
| RadarChannel.RunLeavesChannelIff | mlan/mlan_11h.c:3643-4182 | exact condition, over completed runs started for an access point or a station, for the comment at line 3757: every access point is moved to a non-zero channel other than the current one if and only if the channel may change and the fixed channel differs from it, or there is none, an access point settles the channel and the search can leave the current channel by the condition above |
| RadarChannel.StationRunLeavesChannelIff | mlan/mlan_11h.c:3720-3798 | a completed run started for a station moves every access point to a non-zero channel other than the one of the first station if and only if the channel may change and a fixed channel is set that differs from it, whatever the tables |
| RadarChannel.MovesToZeroIff | mlan/mlan_11h.c:3753-3798 | a completed run moves every access point to channel 0 if and only if the channel may change, none is fixed, and either a station settles it (the test at lines 3767-3785 only logs) or the matching table has no usable entry (an access point skips the test at lines 3764-3769) |
| RadarChannel.PickedMayBeUsed | mlan/mlan_11h.c:3753-3798 | a channel that an access point picks from its table, neither fixed nor kept, never needs radar detection, is not under non-occupancy nor the one just marked, is enabled, and is 165 only in the US or on 20 MHz |
| RadarChannel.RunMarksChannel | mlan/mlan_11h.c:3753-3763 | after a completed run, started for an access point or a station, the channel radar was seen on is under non-occupancy and the answer for every other channel is as before |
| RadarChannel.DefaultChannelExample | mlan/mlan_11h.c:1333-1344 | radar on channel 36, 5 GHz, 11h off: a completed run moves the access point back to 36 |
| RadarChannel.FixedChannelExample | mlan/mlan_11h.c:3786-3794 | a completed run that moves the access point to the fixed channel radar was seen on |
| RadarChannel.StationExample | mlan/mlan_11h.c:3720-3798 | radar on the channel of a station, 11h on, channel 40 usable: a completed run moves the access point to channel 0 |
| RadarHandler.RadarState.CustomIes | mlan/mlan_11h.c:3886-3992 | every DFS master up to the first one without a prepared IE gets its command |
| RadarHandler.RadarState.NextUap | mlan/mlan_11h.c:4049-4081 | one command to the next access point behind the index, and none when there is none left |
| RadarHandler.RadarState.NextStop | mlan/mlan_11h.c:4002-4027 | one stop or disconnect to the next interface that is up |
| RadarHandler.RadarState.NextDtim | mlan/mlan_11h.c:3829-3874 | stops at the next access point; the longest period takes in every station passed |
| RadarHandler.RadarState.GetPrivCurrIdx | mlan/mlan_11h.c:3530-3548 | the index of the interface in the list, or the length of the list |
| RadarHandler.RadarState.ChannelKnown | mlan/mlan_11h.c:3753-3804 | marks the channel in the list of stamps, then searches that list, then applies the test settings: state, stamps and commands are those of the specification |
| RadarHandler.RadarState.Handle | mlan/mlan_11h.c:3614-4192 | one call, entering at the current stage and falling through: the new state, the stamps and all commands are those of the specification |
| RadarHandler.RadarState.HandleAll | mlan/mlan_11h.c:3614-4192 | over every sequence of calls the fields, the stamps and the commands are those of the run of the specification |
| DomainCodec.ChannelsRise | mlan/mlan_11d.c:65-121 | both universal channel tables are strictly ascending |
| DomainCodec.GenerateDomainInfo | mlan/mlan_11d.c:276-350 | the sub-bands written in place are the run-length encoding of the table, and fit |
| DomainCodec.GetChan | mlan/mlan_11d.c:426-465 | the channel n places behind the first one in the table of the band, none beyond its end or for another band |
| DomainCodec.ParseSubBand | mlan/mlan_11d.c:1083-1107 | one sub-band is expanded as far as the table and the room go, behind what was read |
| DomainCodec.ParseDomainInfo | mlan/mlan_11d.c:1041-1112 | the table filled in place is the reading of the element; refused exactly without a country or sub-bands |
| DomainProperties.RoundTrip | mlan/mlan_11d.c:276-350 | for every non-empty strictly ascending one-band table of up to 40 channels, with any powers and any marks for APs seen, parsing the generated sub-bands gives its channels and powers back; the marks, which sub-bands do not carry, come back cleared |
| DomainProperties.NothingToMerge | mlan/mlan_11d.c:305-340 | no two adjacent sub-bands written could be merged, and there are no more than entries |
| DomainProperties.ParseRises | mlan/mlan_11d.c:1075-1112 | whatever an element says, the reading is strictly ascending, within 40 entries and within the table of the band |
| DomainReading.RefusedElement | mlan/mlan_11d.c:1041-1073 | an element is refused exactly without a country or without a whole sub-band field |
| DomainReading.OneMoreSubBand | mlan/mlan_11d.c:1075-1107 | one more sub-band adds nothing when it starts at or before the last channel read or at a channel the band does not have; otherwise the channels of the band from its first on, with its power, as many as it says, the band has and there is room for |
| DomainTable.SeenGood | mlan/mlan_11d.c:384-409 | noting the channel of a BSS keeps one entry per channel and band and at most 40 |
| DomainPowers.SeenLowers | mlan/mlan_11d.c:384-409 | seeing a BSS lowers the power of its channel to the one allowed and marks it, or adds it while there is room; no other channel changes |
| DomainPowers.CountryDecides | mlan/mlan_11d.c:496-559 | a channel the country information names gets the power it says and keeps its mark, every other channel stays; a known channel is never lost, a new one only when the table is full |
| DomainScan.ScanDecides | mlan/mlan_11d.c:1455-1472 | what a whole scan says of each channel, for every table and scan whose channels fit the table together: the BSSes decide in the order found; one on the channel lowers or adds it, country information read after that and naming it sets its power, nothing else changes it |
| DomainScan.NamedIsThere | mlan/mlan_11d.c:1455-1472 | every channel that some country information of the scan names is in the table afterwards, with the power it says unless a later BSS is on the channel or names it |
| DomainScan.NeverLost | mlan/mlan_11d.c:1455-1472 | whether or not all channels fit, a channel the table has is never lost |
| DomainTable.MergedGood | mlan/mlan_11d.c:496-559 | merging a reading keeps both, although new entries are not searched for duplicates; this rests on readings being ascending |
| DomainTable.AddAllGood | mlan/mlan_11d.c:1455-1468 | over every scan table: at most one entry per channel and band, at most 40 entries |
| DomainTable.SortedSorts | mlan/mlan_11d.c:596-622 | the sort gives an ascending permutation and keeps the order of entries with the same channel number |
| DomainTable.ScanResult | mlan/mlan_11d.c:1455-1472 | what a whole scan leaves: ascending, unique per channel and band, at most 40, and nothing lost by the sort |
| DomainTable.ParsedRegionChan.UpdateChanPwrTable | mlan/mlan_11d.c:361-412 | the table in place becomes that of the specification; a channel without power is refused unchanged |
| DomainTable.ParsedRegionChan.MergeEntry | mlan/mlan_11d.c:503-551 | a known channel gets the new power, another one is appended while there is room |
| DomainTable.ParsedRegionChan.ProcessCountryInfo | mlan/mlan_11d.c:475-562 | the merge in place is that of the specification; an empty table takes the reading over; an element that cannot be read changes nothing |
| DomainTable.ParsedRegionChan.InsertAt | mlan/mlan_11d.c:608-615 | one entry is shifted to its place among the sorted ones; entries behind it stay |
| DomainTable.ParsedRegionChan.SortParsedRegionChan | mlan/mlan_11d.c:596-622 | the in-place insertion sort computes the sorted table |
| DomainTable.ParsedRegionChan.PrepareDomainInfo | mlan/mlan_11d.c:1455-1472 | the fold over the scan table, then the sort |

## Left out

- Locks, interrupts and true concurrency; allocation failure; logging; formatting of commands, events and
  ioctls. Deliveries and commands are results and traces.
- The return status of the upper layer for a packet: dispatching has no effect on the window, and its
  status is not used by it.
- Zeroed allocation of a table entry is assumed: `amsdu` and `flush_data` are not set at creation
  (mlan/mlan_11n_rxreorder.c:488-545) and are taken as false.
- Window sizes of 1 .. 1023, SSNs and sequence numbers below 4096, `last_seq` below 4096 or 0xffff, as the
  10-bit and 12-bit fields give them. A window of 0, which needs a configured limit of 0, is not modelled.
- RxReorder.RxReorderTbl.UpdateTimer: says nothing for windows above 64, where the source shifts by the
  width of the word or more, which C leaves undefined; `RxReorder.RxReorderTbl.Store` then leaves the word
  arbitrary. `1UL` is taken as 64 bits wide. All other results hold for those windows too.
- RxReorder.RxReorderTbl.FlushTimerExpires: the two flush times by access category and the stop of a
  running timer are not modelled, only whether a timer runs.
- RxTable.RxPrivate.CreateRxReorderTbl: who writes the remembered sequence numbers (receive paths outside
  this table) is not modelled; they are fields.
- RxTable.RxPrivate.RxbaSyncEvent: an element is its parsed fields and a sequence of bits; the byte-wide
  loop counter, which does not end for a bitmap of 256 bytes or more, is not modelled.
- RxTable.RxPrivate.DeleteBastream: the transmit block-ack table and the RA list it resets are not part of
  this model.
- ReorderOrder.RunInOrder: for steady runs only; in the start-up phase, on the A-MSDU bypass and in a
  forced restart packets go around the window, so there is no order to keep. Conservation covers them.
- AmsduCodec.DeaggregatePkt: 14 readable bytes behind the aggregate are required, because the length field
  is compared with the bytes left including the header; the larger receive limit of USB, TDLS, EAPOL and
  the path that hands a whole aggregate to the host are not modelled, nor allocation failure midway.
- AmsduQueue.RaList.AggregatePkt: one call with the lock held throughout, over a queue that holds no
  aggregate put back earlier; the TxPD is given as bytes; the check that the RA list still exists, the
  byte and MPDU budgets, the drop point for measurements and the scatter-gather variant
  (mlan/mlan_11n_aggr.c:650-799) are not modelled.
- NonOccupancy.NopListIsClockRule: for a 32-bit clock that does not go back during the run; microseconds,
  which the comparison ignores, are not modelled. Some interface exists when a channel becomes usable.
- ChannelSearch.StartChannelFinds: what the search finds is stated for at most one matching region table,
  as the driver fills them (one of two is for 5 GHz, mlan/mlan_cfp.c:2640-2700); for several,
  `ChannelSearch.GetUapStartChannel` is the specification and `ChannelSearch.SecondTableUnchecked` what it leads to. A valid table has 1 to 255 entries
  (the source divides by their number, a byte).
- RadarChannel.RunLeavesChannelIff: at most one matching region table, no table with a channel 0, which
  would read as "none", and every IE prepared; likewise `RadarChannel.MovesToZeroIff`.
- RadarPlan.CompletedRunIsPlan: with some interface active and every IE prepared; a failed preparation
  cuts the list of interfaces short (`RadarTiming.IesUpToFault`). `RadarRuns.HandlerEnds` needs none of that.
- RadarHandler.RadarState.Handle: ECSA, host-based DFS, the band configuration carried along, and changes
  of the interface list from outside during a run are not modelled; neither is the null interface.
- The power merge at mlan/mlan_11d.c:1381-1416 tests one pair of indices and updates another; it has no
  contract to prove.
- DomainCodec.ParseDomainInfo: the length field stays within the 83 sub-bands stored; 255 would say 84.
  Channel numbers, powers and counts are unbounded where the source has bytes; none of the code modelled
  lets them grow beyond the values read.
- DomainScan.ScanDecides: when the channels named do not fit into 40 entries, which new ones are kept depends on
  the order; then only `DomainScan.NeverLost` and the step lemmas hold.
- DomainTable.ParsedRegionChan.PrepareDomainInfo: the power the region allows on a channel is a parameter
  of each BSS; the download to the firmware that follows is not modelled.
- HE MCS maps, VHT maps, measurement requests and ioctl plumbing: field copying.
