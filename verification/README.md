# A verified model of a user-space TCP/IP stack

This project models the hard core of the stack in Dafny and proves what its code keeps over every run: the TCP engine
(`src/tcp.rs`), blocking and wake-ups (`src/platform/linux/task.rs`), the ARP cache (`src/arp.rs`), the Internet checksum
(`src/util.rs`), the packet builders and parsers (`src/ip.rs`, `src/tcp.rs`, `src/udp.rs`) and the UDP port table
(`src/udp.rs`). `dafny verify dfyconfig.toml` checks all of it.

## How it is built

* `TcpPcb` says what one locked section does to one connection block, as functions on values: SEGMENT ARRIVES stage by
  stage, the timer, and the user calls. Sequence numbers are 32-bit words with explicit wrap-around, and comparisons are
  the plain unsigned ones of the source.
* `TcpTable` and `TcpOps` lift this to the whole table of blocks, with backlogs, tasks and the packets handed down.
  `TcpStack` is the engine as it runs: a class that updates its fields in place, with the source's loops. Every method
  is proved equal to the corresponding function.
* `TcpConn`, `TcpQueue`, `TcpWire`, `TcpRuns`, `TcpStates` and `TcpTests` carry a history beside a block (bytes written,
  accepted, read; FINs seen and sent) and prove what every run of it keeps. `TcpRefine` shows that every live block of
  every run of the table is such a run, so these theorems hold of the table. `TcpCases` and `TcpDemuxCase` are concrete
  reachable blocks and tables in which the code does otherwise than one would expect.
* `TcpStream` puts two endpoints around a network that drops, duplicates and reorders. The network is the set of all
  segments ever sent; any of them may be delivered at any moment, any number of times or never. `TcpExamples` is a
  concrete run of it. `TcpHosts` carries the theorems over to two whole stacks, on whose tables anything else may run.
* `TcpEffects` and `TcpTableEffects` say what must be on the wire when the lock is released: whatever takes sequence space
  is sent, whatever is taken is acknowledged, whatever is overdue is sent again, whatever is unknown is refused.
  `TcpExchange` composes two blocks over a network that passes everything on: opening, text, a repaired loss, closing.
* `TcpCalls` and `TcpSockets` say what the user calls return: the bytes of `receive`, the counts of `send`, the order of
  `accept`, and the verdicts of the others. `TcpAcceptCase` is a run in which `accept` hands out the wrong block.
* `TcpDemux` proves demultiplexing over every run of the table.
* `Waiting` models tasks and any number of threads on them; `TcpWake` proves what every locked section owes the waiters;
  `TcpBlocking` and `UdpBlocking` prove which wake-ups are not lost.
* `Checksum`, `Packets`, `PacketBuffers`, `PacketChecks`, `Arp`, `ArpSections` and `Udp` are the supporting cores.

"Once opened" means: open, connect or listen is used on a block only while it is fresh, and the first SYN leaves the
host. Nothing is assumed about wrap-around: where sequence numbers are compared with counts, the counts are unbounded and
wrapped explicitly. The clock, the initial sequence numbers, the verdict of the IP layer, the route lookup and the segment
size of a route are inputs, arbitrary ones.

## What turned out to be false, and when it is true

* A FIN is processed even if it is early: the receiver then acknowledges text it never accepted, and the sender forgets
  it (`TcpExamples.EarlyFinLosesText`). The stream is completed exactly if the FIN is the next thing expected
  (`TcpStream.FinCompletesStreamIff`, `TcpTests.FinAcksExactlyIff`).
* The sender wedges when its sequence numbers reach 2^32. SND.UNA never wraps, because a new ACK must lie between SND.UNA
  and SND.NXT by plain comparison; once SND.NXT has wrapped, nothing is acknowledged and nothing leaves the queue for the
  rest of the run (`TcpRuns.WrapWedges`, `TcpRuns.SequenceSpaceBound`). `TcpRuns.CanTakeAckIff` says exactly when a block
  can take a new ACK.
* FIN_WAIT2 is reached with everything acknowledged exactly if the sender did not wrap (`TcpStates.FinWait2IsQuietIff`;
  `TcpCases.WrappedFinWait2` is a block where it did).
* The receiver wedges as well: once its open window reaches 2^32, no segment is acceptable, and nothing is taken for the
  rest of the run (`TcpRuns.ReceiveWedges`). A listener's connection whose peer picks an initial sequence number from
  2^32 - 65536 to 2^32 - 2 is never established (`TcpRuns.LateNumberNeverOpens`).
* The plain comparisons refuse what the modular tests of section 3.3 of RFC 793 accept, exactly when the interval tested
  reaches 2^32 (`TcpTests.AcceptableIsExactIff`, `TcpTests.NewAckIsExactIff`).
* A segment can be taken by a CLOSED block that is bound to the port and sits in an earlier slot than the connection
  (`TcpDemuxCase.ClosedBlockTakesSegment`); it reaches its connection exactly if there is none
  (`TcpDemux.SegmentReachesItsConnection`).
* TIME_WAIT entered from CLOSING still has the acknowledged FIN queued, and the retransmission deadline closes the block 18
  seconds early without freeing it (`TcpStates.ClosingCutsShort`, `TcpCases.ClosingEndsEarly`); `TcpStates.TimeWaitRuns`
  and `TcpStates.TimeWaitStarts` say exactly how long any TIME_WAIT lasts and when it begins with an empty queue.
* An ACK that opens the send window notifies nobody (`TcpWake.WindowOpensSilently`, `TcpCases.SilentWindowReached`), and
  neither does a FIN in FIN_WAIT1 or FIN_WAIT2 for which `receive` waits (`TcpCases.SilentFinReached`). `TcpWake.NotifiesIff`
  says exactly which segments notify an open block, `TcpWake.LostReceiveIff` exactly which arrivals fail a reader.
* `receive` in CLOSING, LAST_ACK and TIME_WAIT reports the end of the stream even if text is still buffered
  (`TcpCalls.EndOfStreamIff`).
* `connect` on a bound socket always fails, because the block itself is in the way (`TcpSockets.BoundConnectFails`). `bind`
  to the wildcard after an address is granted, to an address after the wildcard it is not
  (`TcpSockets.BindSucceedsIff`, `TcpSockets.BindOrderMatters`).
* `accept` can hand out a block that nobody connected to: the backlog keeps the slot of a child that was reset, and the
  slot may have gone to another socket (`TcpAcceptCase.AcceptHandsOutStranger`). It hands out the child exactly if that was
  not released in between (`TcpAcceptCase.AcceptHandsOutChildIff`).
* A reset is answered in SYN_SENT if its ACK is not one of the SYN, and nowhere else (`TcpEffects.ResetAnsweredIff`); section
  3.4 of RFC 793 has no reset answered.
* The handshake opens both ends exactly if the client's initial number is below 2^32 - 65536 and the server's is not
  2^32 - 1 (`TcpExchange.HandshakeOpensIff`); `TcpExchange.TextArrivesIff` and `TcpExchange.OrderlyCloseIff` give the
  conditions for text and for a close.
* A UDP datagram whose checksum was changed to zero is taken as it is (`PacketChecks.ZeroedChecksumIsTaken`); every other
  change of one word is seen, apart from one between the two zeros (`PacketChecks.ChangedDatagramIsDropped`).
* `arp::input` releases the cache between its update and its insertion. Inputs and the timer take turns on one dispatching
  thread, but a lookup on another thread can come in between: the cache then holds the address twice, and `resolve` goes on
  waiting for an answer that was heard (`ArpSections.LookupInBetween`). A second entry arises exactly if an insertion finds
  that the address has been entered since it was found missing (`ArpSections.StaysUniqueIff`). What is answered is the most
  recent packet's in any case (`ArpSections.AnswersAreLatest`), on a clock that advances between two sections of the inputs;
  if it stands still, an eviction can leave the older of two entries (`ArpSections.TieGoesStale`).

## Model

| member | source | states |
|---|---|---|
| `TcpStack.Stack.PcbAlloc` | src/tcp.rs:312-325 | the first free slot, or a new one up to 16, gets a fresh block with a task of its own; otherwise nothing changes |
| `TcpStack.Stack.PcbRelease` | src/tcp.rs:327-361 | terminates on every table, cyclic and duplicated backlogs included (measure: backlog links); frees exactly the live blocks reachable through backlog links, notifies exactly their tasks, resets exactly the peers of the open ones it reached through a backlog; fails exactly if the block waits in its own backlog |
| `TcpStack.Stack.ReleaseBacklog` | src/tcp.rs:333-355 | the loop over the backlog has freed a set closed under links at every round |
| `TcpTable.ReleaseRound` | src/tcp.rs:333-355 | one round of that loop extends the freed set by exactly what the entry reaches |
| `TcpTable.ReleaseEnds` | src/tcp.rs:356-361 | after the loop only the block itself is left, unless it was freed on the way |
| `TcpTable.AllAbsorbed` | src/tcp.rs:327-361 | what was freed is the least set that contains the block and is closed under backlog links |
| `TcpTable.LinksDrop` | src/tcp.rs:331 | taking a non-empty backlog away strictly lowers the number of links, which is why the release terminates |
| `TcpStack.Stack.CleanupQueue` | src/tcp.rs:400-412 | drops the leading entries that end at or before SND.UNA, by the plain comparison |
| `TcpStack.Stack.RetransEmit` | src/tcp.rs:414-446 | closes the block past the deadline, otherwise resends exactly the due entries and doubles their timeout; `TcpEffects.OverdueIsSentAgain` and `TcpEffects.TimerClosesIff` say which these are |
| `TcpStack.Stack.TimerAt` | src/tcp.rs:456-473 | a TIME_WAIT block past its timer is released, any other is retransmitted |
| `TcpStack.Stack.OnTimer` | src/tcp.rs:453-474 | the whole timer run, slot by slot, on a table that changes underneath it |
| `TcpStack.Stack.PcbSelect` | src/tcp.rs:476-501 | the scan returns the selection function's value |
| `TcpOps.SelectSpec` | src/tcp.rs:476-501 | no live block matches, or the first match past LISTEN is returned, or without one the last listener |
| `TcpStack.Stack.SegmentArrives` | src/tcp.rs:539-890 | SEGMENT ARRIVES on the whole table equals the delivery function, in every state and for every segment |
| `TcpStack.Stack.ArriveListen` | src/tcp.rs:583-637 | LISTEN: RST ignored, ACK reset, SYN taken by the listener or by a child of a socket-mode listener with room |
| `TcpStack.Stack.AdoptSyn` | src/tcp.rs:603-630 | the child gets the first free slot, its parent and the SYN; a full table drops the SYN |
| `TcpStack.Stack.AcceptSyn` | src/tcp.rs:620-630 | the block that takes a SYN is in SYN_RECEIVED with its SYN and ACK queued and sent |
| `TcpStack.Stack.ArriveSynSent` | src/tcp.rs:638-697 | SYN_SENT: bad ACK reset, good RST closes, SYN establishes or crosses |
| `TcpStack.Stack.ArriveSynchronized` | src/tcp.rs:703-767 | the first four checks: acceptability, RST, SYN, and the need for an ACK |
| `TcpStack.Stack.CheckAck` | src/tcp.rs:768-828 | the ACK check in all eight synchronized states |
| `TcpStack.Stack.TakeNewAck` | src/tcp.rs:789-799 | a new ACK moves SND.UNA, trims the queue and takes a newer window |
| `TcpStack.Stack.JoinBacklog` | src/tcp.rs:829-835 | a completed child enters the backlog of its live parent and notifies it |
| `TcpStack.Stack.CheckText` | src/tcp.rs:838-857 | text is taken only in order and within the window, otherwise acknowledged again; `TcpEffects.TextIsAcked` and `TcpEffects.TextIsAnswered` say that it is |
| `TcpStack.Stack.CheckFin` | src/tcp.rs:859-889 | the FIN check and its transitions |
| `TcpOps.ChecksCompose` | src/tcp.rs:768-889 | the checks, run one after the other on the shared table with the parent's backlog changed in between, equal one reaction of the block |
| `TcpStack.Stack.AssignPort` | src/tcp.rs:973-996 | the first dynamic port that no block matches |
| `TcpStack.Stack.ChooseSource` | src/tcp.rs:958-1001 | the local endpoint of an active open or a connect, or failure |
| `TcpStack.Stack.SendSyn` | src/tcp.rs:1002-1015 | the SYN is queued and sent; the block is in SYN_SENT, or CLOSED if the IP layer refused |
| `TcpStack.Stack.OpenActively` | src/tcp.rs:945-1015 | active open up to its wait, with every failure releasing the block |
| `TcpStack.Stack.OpenPassively` | src/tcp.rs:1016-1029 | passive open up to its wait |
| `TcpStack.Stack.ConnectTo` | src/tcp.rs:1331-1390 | connect up to its wait, in whatever state the block is |
| `TcpStack.Stack.CloseConnection` | src/tcp.rs:1075-1117 | close in every state, and exactly when it fails |
| `TcpStack.Stack.SendPass` | src/tcp.rs:1122-1157 | one locked pass of send equals its function and returns its result; `TcpCalls.SendReportsWhatItWrote` and `TcpCalls.SendWaitsIff` say what that result means |
| `TcpStack.Stack.ReceivePass` | src/tcp.rs:1175-1212 | one locked pass of receive equals its function and returns its result; `TcpCalls.ReceiveHandsOut` and `TcpCalls.ReceiveWaitsIff` say what that result means |
| `TcpStack.Stack.OpenSocket` | src/tcp.rs:1225-1234 | a fresh block in socket mode |
| `TcpStack.Stack.BindTo` | src/tcp.rs:1236-1262 | bind and its four failures |
| `TcpStack.Stack.StartListening` | src/tcp.rs:1264-1280 | listen and its three failures |
| `TcpStack.Stack.AcceptPass` | src/tcp.rs:1284-1320 | one locked pass of accept, with released children skipped |
| `TcpStack.Stack.GiveUp` | src/tcp.rs:1041-1059 | what a failed wait of open (releasing) or connect (not releasing) does |
| `TcpStack.Stack.SetSegmentSize` | src/tcp.rs:1063-1072 | the last locked section of open and connect, and its two failures |
| `TcpConn.StepKeeps` | src/tcp.rs:539-890 | every event keeps the whole invariant of a once-opened block: phase, receive buffer, send counters, queue contents and pacing |
| `TcpConn.StepExtends` | src/tcp.rs:859-889 | histories only grow; no text is accepted after a FIN was processed, none written after the own FIN, ISS and IRS are set once |
| `TcpConn.TextStageKeeps` | src/tcp.rs:838-857 | text appended to the buffer is the text accepted, and window plus buffer stay 65535 |
| `TcpConn.ChunkKeeps` | src/tcp.rs:1145-1154 | a chunk that send takes is queued at its place in the stream and stays within the window |
| `TcpConn.TickKeeps` | src/tcp.rs:414-446 | retransmission keeps every entry's place, contents and pacing |
| `TcpWire.StepSends` | src/tcp.rs:375-385 | every segment ever sent carries text in its place, its SYN at ISS, its FIN after everything written, and acknowledges no more than was accepted unless a FIN was processed |
| `TcpQueue.CleanupTiles` | src/tcp.rs:400-412 | trimming a queue that has not wrapped to a new SND.UNA drops a prefix and leaves a tiling from there |
| `TcpQueue.StepExact` | src/tcp.rs:375-412 | every event keeps the queue exact, through wrap-around |
| `TcpRuns.RunKeeps` | src/tcp.rs:539-890 | the invariant and the exact queue hold all along every run |
| `TcpRuns.QueueExactness` | src/tcp.rs:375-412 | every run, through wrap-around: the entries tile the sequence space from the one that holds SND.UNA up to SND.NXT, each with its own piece of the stream; the queue is empty exactly when una = nxt; each unacknowledged byte is queued at its own sequence number modulo 2^32; a FIN is queued last |
| `TcpRuns.SequenceSpaceBound` | src/tcp.rs:789-791 | every run: SND.UNA never wraps, at most 65536 lies between it and what was sent, so iss plus the bytes written stays below 2^32 + 65536; SND.NXT has wrapped exactly if it is below SND.UNA |
| `TcpRuns.CanTakeAckIff` | src/tcp.rs:704-799 | a block in SYN_RECEIVED, ESTABLISHED, CLOSE_WAIT, FIN_WAIT_1 or FIN_WAIT_2 can take a new ACK if and only if una < nxt by plain comparison and its receive window, unless closed, does not reach 2^32 |
| `TcpRuns.WrapWedges` | src/tcp.rs:789-805 | once SND.NXT has wrapped, for the rest of every run nothing is acknowledged and nothing leaves the queue |
| `TcpRuns.RunPlain` | src/tcp.rs:704-720 | every run: the text accepted, counted from after the peer's SYN, stays below 2^32 |
| `TcpRuns.ReceiveWedges` | src/tcp.rs:704-727 | once the open window of a synchronized block reaches 2^32, for the rest of every run no ACK, text or FIN is taken |
| `TcpRuns.LateNumberNeverOpens` | src/tcp.rs:623-625 | a listener's child whose peer's initial sequence number is from 2^32 - 65536 to 2^32 - 2 is never established, in any run |
| `TcpRuns.ReceiveConservation` | src/tcp.rs:838-857 | every run: rcv.wnd + buffered = 65535, read followed by buffered = accepted, and until a FIN rcv.nxt = irs + 1 + accepted, modulo 2^32 |
| `TcpRuns.WindowArithmetic` | src/tcp.rs:1185-1200 | every run: neither u16 update of the window over- or underflows |
| `TcpRuns.ResentAtMostFiveTimes` | src/tcp.rs:414-446 | along the life of a queue entry in a run, under any timer schedule: it is sent again at most 5 times, after k times its timeout is 200ms * 2^k, and the k-th came no earlier than 200ms * (2^k - 1) after the first sending |
| `TcpRuns.EveryEntryHasLife` | src/tcp.rs:387-396 | every entry queued at any moment of a run has such a life, which begins where the entry was not queued one step before |
| `TcpRuns.ResendingIsSent` | src/tcp.rs:436-445 | what is counted as a resending puts that entry on the wire |
| `TcpStates.RunFollows` | src/tcp.rs:582-889 | every step of every run takes an edge of Figure 6 in section 3.2 of RFC 793 or drops to CLOSED; only an arrival takes two, through ESTABLISHED to CLOSE_WAIT or through FIN_WAIT_2 to TIME_WAIT |
| `TcpStates.StepRank` | src/tcp.rs:582-889 | every change of state strictly raises a rank |
| `TcpStates.BoundedChanges` | src/tcp.rs:582-889 | a once-opened block changes state at most 7 times in any run |
| `TcpStates.RunExtends` | src/tcp.rs:838-889 | between any two moments of a run: nothing accepted after a FIN, nothing written after the own FIN |
| `TcpStates.FinWait2IsQuietIff` | src/tcp.rs:789-809 | every run: in FIN_WAIT_2 everything is acknowledged and the queue empty, if and only if una <= nxt by plain comparison |
| `TcpStates.TimeWaitStarts` | src/tcp.rs:811-885 | every run: TIME_WAIT is entered by an arrival in FIN_WAIT_1, FIN_WAIT_2 or CLOSING, for 30 seconds, with an empty queue if and only if it was not from CLOSING and the sender did not wrap; from CLOSING the queue is kept |
| `TcpStates.TimeWaitStep` | src/tcp.rs:448-474 | which events end a TIME_WAIT, which restart its timer, and that all others leave both and the deadlines alone |
| `TcpStates.TimeWaitRuns` | src/tcp.rs:811-885 | every run, however TIME_WAIT was entered and whatever else happens: the block is in TIME_WAIT exactly until something ends it, its timer 30 seconds after it was last set, its deadlines those it came with |
| `TcpStates.TimeWaitTimer` | src/tcp.rs:453-474 | what a timer run does to it at any moment: release it past the timer; before, close it and not free it at a deadline of something queued; otherwise leave it, untouched if nothing is queued |
| `TcpStates.ClosingCutsShort` | src/tcp.rs:417-429 | in any run, a timer run 12 seconds after a TIME_WAIT was entered from CLOSING, or later before its timer, closes the block and does not free it |
| `TcpCases.ClosingEndsEarly` | src/tcp.rs:811-817 | a run through CLOSING to TIME_WAIT and, by the timer run at 12 seconds, to CLOSED and not freed |
| `TcpCases.WrappedFinWait2` | src/tcp.rs:800-809 | a run with ISS 2^32 - 2 to FIN_WAIT_2 with the FIN still queued |
| `TcpTests.AcceptableIsSound` | src/tcp.rs:704-720 | the plain acceptability test implies the modular one of section 3.3 of RFC 793 |
| `TcpTests.AcceptableIsExactIff` | src/tcp.rs:704-720 | they agree on every segment exactly when the window is closed or does not reach 2^32 |
| `TcpTests.NewAckIsExactIff` | src/tcp.rs:789 | the test for a new ACK is sound, and exact exactly when una <= nxt |
| `TcpTests.StepFlight` | src/tcp.rs:1145-1154 | any event, through wrap: an arrival past LISTEN only shrinks what is in flight, send stays within the last recorded window |
| `TcpTests.InFlightBound` | src/tcp.rs:1145-1154 | any sequence of events whatever: (nxt - una) modulo 2^32 is at most 65536 |
| `TcpTests.FinAcksExactlyIff` | src/tcp.rs:865 | the FIN step acknowledges exactly the text accepted and the FIN if and only if the FIN is at rcv.nxt |
| `TcpRefine.OpTracks` | src/tcp.rs:945-1430 | every operation on the table takes each block through legal events of its own, and leaves each live block with a reachable history |
| `TcpRefine.TableRefinesConnection` | src/tcp.rs:539-1430 | at every moment of every run of the stack, each live block is one that a run of the one-connection model reaches |
| `TcpRefine.TableKeepsInvariant` | src/tcp.rs:539-1430 | so the invariant of a connection holds of every live block of every table |
| `TcpStream.StreamSafety` | src/tcp.rs:838-889 | two endpoints, any network, streams of any length: read followed by buffered is always a prefix of what the other side wrote, both ways, early FINs and wrapped numbers included |
| `TcpStream.UnaNeverPasses` | src/tcp.rs:789-791 | any run, until the receiver processes a FIN: snd.una never passes the place of the receiver's rcv.nxt, which counts what it accepted |
| `TcpStream.Conservation` | src/tcp.rs:375-412 | under the same condition every byte written is accepted by the receiver or queued at its own sequence number; of a block that was released, in the queue it had when it was released |
| `TcpStream.StepWindow` | src/tcp.rs:793-799 | only an arrival changes the send window, to its own, and once synchronized only if it is not older than the one in use |
| `TcpStream.WindowWasAdvertised` | src/tcp.rs:673-680 | any run: the window a sender respects came, with the numbers that date it, on a segment its peer sent |
| `TcpStream.ExpectedIsNext` | src/tcp.rs:845-852 | text that sits where the receiver expects text is what comes next in the stream: no old or early segment passes for it |
| `TcpStream.AcceptedIsReported` | src/tcp.rs:845-857 | any run: all the text a side has accepted so far was acknowledged on a segment that it sent, also after a FIN |
| `TcpStream.FinFreezes` | src/tcp.rs:859-889 | nothing is accepted after a FIN was processed, for the rest of the run |
| `TcpStream.FinCompletesStreamIff` | src/tcp.rs:859-866 | the receiver ends up with all the sender wrote exactly if the FIN it processed was the next thing expected |
| `TcpHosts.SurvivorFollows` | src/tcp.rs:539-1430 | an operation on the table takes every block that survives it through exactly the events that concern it: those of the selected or named block, the timer, its own children joining its backlog |
| `TcpHosts.NewbornFollows` | src/tcp.rs:312-325 | a block that an operation did not find in its slot was born there with a task never used before, by a listener, open or socket |
| `TcpHosts.StepKeepsHost` | src/tcp.rs:312-361 | the block that is followed is in its slot with its history, or not born yet, or gone for good, whatever happens to the other blocks |
| `TcpHosts.TablesDeliverStreams` | src/tcp.rs:539-1430 | two whole stacks, any operations on any blocks of either table, one block followed on each: if what those two are handed was sent by the other or is a bare reset, read followed by buffered is always a prefix of what was written to the other, both ways |
| `TcpHosts.TablesLoseNothing` | src/tcp.rs:375-412 | in the same runs, while the block is in its table and until the peer processes a FIN, every byte written to it was accepted by the peer or is in its queue at its own sequence number |
| `TcpCalls.ReceiveHandsOut` | src/tcp.rs:1185-1205 | what receive returns followed by what it leaves is what was buffered; no more than fits, and in the four reading states as much as fits; nothing is sent and no other block changes |
| `TcpCalls.ReceiveWaitsIff` | src/tcp.rs:1175-1212 | exactly when receive fails and when it waits; then nothing changes |
| `TcpCalls.EndOfStreamIff` | src/tcp.rs:1192-1205 | exactly when a reader with room is told that the stream has ended |
| `TcpCalls.SendReportsWhatItWrote` | src/tcp.rs:1145-1154 | the count send reports is that of the first bytes of what was left: they are on the wire at the old SND.NXT, which moves past them, and last in the queue; they fit segment size and window, and are as many as do |
| `TcpCalls.SendWaitsIff` | src/tcp.rs:1122-1148 | exactly when send fails, is done or waits; then nothing changes |
| `TcpCalls.HistoryIsResults` | src/tcp.rs:1122-1212 | two whole stacks, every run: the history of a followed block is the concatenation of what its receive calls returned and of what its send calls reported |
| `TcpCalls.CallsDeliverStreams` | src/tcp.rs:1122-1212 | so in every run what receive returned on one side, followed by what is buffered in its table, is a prefix of what send reported as written on the other |
| `TcpCalls.SendWritesItsCount` | src/tcp.rs:1117-1172 | the passes of one send over `data`, whatever else happens in between, have written exactly `data[..k]`, where k is the sum of their counts |
| `TcpEffects.QueuedIsSent` | src/tcp.rs:375-396 | any event: an entry that is in the queue afterwards was there before, unchanged, or a packet with its number, flags and text and the current acknowledgment left in this section |
| `TcpEffects.TextIsAcked` | src/tcp.rs:845-857 | any arrival that lengthens the buffer by n sends the peer an ACK of rcv.nxt + n, modulo 2^32 |
| `TcpEffects.AdvanceIsAcked` | src/tcp.rs:620-889 | any arrival that moves RCV.NXT, by a SYN, text or a FIN, sends the peer an ACK of it |
| `TcpEffects.TextIsAnswered` | src/tcp.rs:704-857 | a block that takes text answers every segment with text: taken, old, early, too long or acknowledging too much, what is expected next goes back |
| `TcpEffects.ResetFreesIff` | src/tcp.rs:655-750 | a reset closes and frees the block exactly if it acknowledges the SYN of SYN_SENT or falls into the window, and otherwise changes nothing |
| `TcpEffects.ResetAnsweredIff` | src/tcp.rs:640-648 | a reset is answered exactly in SYN_SENT with an ACK that is not one of the SYN |
| `TcpEffects.SynInWindowResets` | src/tcp.rs:753-760 | a SYN in the window of a synchronized block sends a reset and frees it |
| `TcpEffects.BadAckIsReset` | src/tcp.rs:588-648 | in LISTEN, SYN_SENT and SYN_RECEIVED an ACK of something never sent is answered with a reset from that number and changes nothing |
| `TcpEffects.NewAckTakesWindow` | src/tcp.rs:789-799 | a new ACK moves SND.UNA, and brings its window along exactly if the segment is not older than the one the window came from |
| `TcpEffects.OverdueIsSentAgain` | src/tcp.rs:414-446 | every run: after a timer run that leaves the block open, each entry has its timeout ahead of it, one that went out only once did so less than 200 ms ago, and each whose timer moved is on the wire |
| `TcpEffects.TimerClosesIff` | src/tcp.rs:414-474 | a timer run closes an open block exactly if an entry is 12 seconds old or its TIME_WAIT is over, and frees it exactly in the latter case |
| `TcpTableEffects.TimerReaches` | src/tcp.rs:453-474 | a timer run gives every block it leaves its share exactly once, with its packets on the wire |
| `TcpTableEffects.TimerServesTable` | src/tcp.rs:414-474 | every run of the stack: after a timer run no entry of any open block is overdue, and what was sent again is on the wire |
| `TcpTableEffects.TakenIsAckedOnWire` | src/tcp.rs:539-890 | when the lock is released, what the selected block took from a segment has its ACK on the wire |
| `TcpTableEffects.ResetFreesBlockIff` | src/tcp.rs:655-750 | on the table: a reset frees the selected block exactly under that condition |
| `TcpTableEffects.UnknownIsRefused` | src/tcp.rs:554-576 | a segment that no live block matches changes no block, and is refused in the form of section 3.4 of RFC 793 unless it is a reset |
| `TcpTableEffects.SynGetsBlockIff` | src/tcp.rs:595-632 | a SYN for a listening socket gets a child in the first free slot, with its SYN and ACK on the wire, exactly if backlog and table have room |
| `TcpTableEffects.ClosingListenerDismisses` | src/tcp.rs:327-361 | a listener that closes frees every open child in its backlog, notifies its task and resets its peer |
| `TcpExchange.HandshakeOpensIff` | src/tcp.rs:583-697 | the three packets of the handshake, passed on, open both blocks exactly under a condition on the two initial numbers; then the blocks agree on all four counters |
| `TcpExchange.TextArrivesIff` | src/tcp.rs:838-857 | text that send puts on the wire is buffered behind what the peer had, and its ACK empties the queue, exactly if both windows lie below 2^32 |
| `TcpExchange.LossIsRepairedIff` | src/tcp.rs:414-446 | text that is lost is sent again by any timer run from 200 ms to 12 s later, and arrives under the same condition |
| `TcpExchange.OrderlyCloseIff` | src/tcp.rs:1075-1117 | a close from both sides frees the one that closes last and leaves the other in TIME_WAIT for 30 seconds, exactly if both windows are open and lie below 2^32 |
| `TcpExchange.CrossedCloseIff` | src/tcp.rs:811-885 | closes that cross leave both blocks in TIME_WAIT, exactly if both windows are open and lie below 2^32 with room for the FIN |
| `TcpExchange.RefusalEndsIff` | src/tcp.rs:554-576 | the reset for a SYN to a closed port frees the client exactly if its initial number is not the last one |
| `TcpSockets.AcceptReturns` | src/tcp.rs:1284-1320 | exactly when accept fails, waits, skips and succeeds; it returns the first of the backlog with its peer and removes it |
| `TcpSockets.JoinIff` | src/tcp.rs:829-835 | a block joins its parent's backlog exactly by the segment that takes it from SYN_RECEIVED to ESTABLISHED or on to CLOSE_WAIT |
| `TcpSockets.BacklogInOrder` | src/tcp.rs:829-835 | every run: the slots of the children completed for a listener are those taken out of its backlog followed by its backlog, in order |
| `TcpSockets.BindSucceedsIff` | src/tcp.rs:1236-1262 | bind succeeds exactly on a live CLOSED block with a nonzero port that no live block keeps from it, and changes only its endpoint |
| `TcpSockets.BindOrderMatters` | src/tcp.rs:483-485 | of two binds to one port, the wildcard after an address is granted, an address after the wildcard is not |
| `TcpSockets.ListenSucceedsIff` | src/tcp.rs:1264-1280 | listen succeeds exactly on a live CLOSED block that has a port |
| `TcpSockets.SourceIff` | src/tcp.rs:958-1001 | open and connect find an endpoint exactly if there is an address and on it the port given, or a dynamic port, that no live block takes |
| `TcpSockets.BoundConnectFails` | src/tcp.rs:1331-1376 | connect on a bound block without a peer always fails |
| `TcpSockets.OpenReturns` | src/tcp.rs:945-1015 | an active open succeeds exactly with room, an endpoint and a SYN that leaves the host; then a free slot waits in SYN_SENT with its SYN on the wire, otherwise all blocks are as before |
| `TcpSockets.PassiveOpenReturns` | src/tcp.rs:1016-1029 | a passive open succeeds exactly with room and free endpoints; then a free slot listens on them |
| `TcpSockets.SocketReturns` | src/tcp.rs:1225-1234 | socket succeeds exactly if one of the 16 slots is free |
| `TcpSockets.AbandonDoes` | src/tcp.rs:1041-1059 | a failed wait leaves the block of connect closed and that of open freed |
| `TcpSockets.CloseDoes` | src/tcp.rs:1075-1117 | close frees a listener or an unanswered connection, sends a FIN at SND.NXT from an open one, and otherwise fails |
| `TcpSockets.FreeingCloseFailsIff` | src/tcp.rs:327-361 | the close that frees a block fails exactly if its backlog leads back to the block itself |
| `TcpSockets.EstablishDoes` | src/tcp.rs:1063-1072 | the last section of open and connect sets the segment size exactly with a live block and a route |
| `TcpAcceptCase.AcceptHandsOutStranger` | src/tcp.rs:1300-1318 | a run of seven operations after which accept returns a socket that nobody connected to |
| `TcpAcceptCase.AcceptHandsOutChildIff` | src/tcp.rs:1300-1318 | accept hands out the child whose handshake was completed exactly if it was not released in between |
| `TcpExamples.EarlyFinLosesText` | src/tcp.rs:865 | a run in which a FIN overtakes a byte: the byte is acknowledged, forgotten by the sender and never accepted |
| `TcpDemux.OpKeeps` | src/tcp.rs:945-1430 | no operation lets two active blocks share local port and remote endpoint |
| `TcpDemux.RunNoClash` | src/tcp.rs:547-630 | so no reachable table has two |
| `TcpDemux.SegmentReachesItsConnection` | src/tcp.rs:476-501 | a segment for an active connection selects it, never a listener, exactly unless a CLOSED block in an earlier slot matches too |
| `TcpDemuxCase.ClosedBlockTakesSegment` | src/tcp.rs:547-576 | a run to a table in which a CLOSED block takes the segments of a connection, and answers its handshake with a reset |
| `Waiting.Task.constructor` | src/platform/linux/task.rs:81-89 | a new task: generation 0, not interrupted, nobody waiting |
| `Waiting.Task.Snapshot` | src/platform/linux/task.rs:35-37 | the snapshot is the current generation |
| `Waiting.Task.WaitAfter` | src/platform/linux/task.rs:39-51 | wait_after up to the point where it blocks or returns |
| `Waiting.Task.Resume` | src/platform/linux/task.rs:49-62 | what a thread does that wakes, for whatever reason; wc counts the blocked threads |
| `Waiting.Task.Notify` | src/platform/linux/task.rs:64-68 | the generation advances, wrapping, and everyone blocked is signaled |
| `Waiting.Task.Interrupt` | src/platform/linux/task.rs:70-76 | the flag goes up, and everyone blocked is signaled if it was down |
| `Waiting.ActKeeps` | src/platform/linux/task.rs:35-76 | every step of any thread keeps: wc counts the sleepers, and a sleeper without a signal has seen the current generation and no interrupt |
| `Waiting.BlockedMissedNothing` | src/platform/linux/task.rs:48-52 | a blocked thread without a signal missed a multiple of 2^64 notifications: none, exactly if there were fewer than 2^64 |
| `Waiting.DoomedIsSignaled` | src/platform/linux/task.rs:70-76 | a blocked thread can always run again, and one that an interrupt hit has its signal |
| `Waiting.InterruptReachesAll` | src/platform/linux/task.rs:53-58 | every thread blocked when interrupt fires returns Interrupted, however the run goes on |
| `Waiting.LastLowersFlag` | src/platform/linux/task.rs:53-57 | the flag goes down only when a thread just returned Interrupted and nobody is blocked |
| `Waiting.WaitTestIff` | src/platform/linux/task.rs:39-62 | every run: a wait test returns Interrupted exactly if the flag is up, Notified exactly if it is down and the notifications missed are not a multiple of 2^64, and otherwise blocks; the flag stays up exactly while others are blocked |
| `TcpWake.OpWakes` | src/tcp.rs:539-1430 | every locked section leaves each block in what its waiters in open, connect, accept, receive and send can find it in without being notified, or notifies its task, apart from the block that connect itself works on |
| `TcpWake.ReleasedWakes` | src/tcp.rs:356-359 | every block that a release frees has its waiters notified |
| `TcpWake.ArriveOwes` | src/tcp.rs:539-890 | so does SEGMENT ARRIVES for the block it selects |
| `TcpWake.NotifiesIff` | src/tcp.rs:789-889 | which segments notify an open block: text it takes, or a FIN without text in ESTABLISHED only |
| `TcpWake.WindowOpensSilently` | src/tcp.rs:789-799 | an ACK that opens a closed window notifies nobody |
| `TcpWake.LostReceiveIff` | src/tcp.rs:873-885 | which arrivals end the reason for which receive waits and notify nobody: exactly a FIN without text in FIN_WAIT_1 or FIN_WAIT_2 |
| `TcpCases.SilentWindowReached` | src/tcp.rs:789-799 | a reachable block whose send waits for such a window |
| `TcpCases.SilentFinReached` | src/tcp.rs:882-885 | a reachable block whose receive waits and is failed by such a FIN |
| `TcpBlocking.NoLostWakeup` | src/tcp.rs:1032-1061 | every interleaving: a thread blocked without a signal, with no connect started or given up on its descriptor meanwhile, has a live block, in open or connect in LISTEN, SYN_SENT or SYN_RECEIVED, in accept with an empty backlog, in receive with nothing to read and the stream open or, in CLOSING and TIME_WAIT, ended silently, in send in ESTABLISHED or CLOSE_WAIT |
| `TcpBlocking.StepKeeps` | src/tcp.rs:1283-1328 | every atomic step keeps every such waiter justified |
| `TcpBlocking.ThreadsOfStack` | src/tcp.rs:1393-1420 | the threads of the stack are an instance of threads at large, so the interrupt theorems hold of them |
| `UdpBlocking.NoLostWakeup` | src/udp.rs:236-280 | a thread blocked without a signal in recvfrom has a live block whose queue is empty or whose notification is still pending |
| `UdpBlocking.StepKeeps` | src/udp.rs:236-280 | every atomic step, the late notification of input included, keeps every waiter justified |
| `UdpBlocking.InputIsOwed` | src/udp.rs:217-252 | every interleaving: a datagram for a bound block joins its queue and makes a notification of its task pending |
| `Checksum.Cksum16` | src/util.rs:7-21 | the wrapping 32-bit loop computes the folded sum; on up to 131072 bytes with a 16-bit initial value it does not overflow and is the checksum of RFC 1071 |
| `Checksum.FoldCarries` | src/util.rs:17-19 | the folding loop |
| `Checksum.AddWords` | src/util.rs:8-16 | the adding loop over little-endian words, a last odd byte by itself |
| `Checksum.NoOverflow` | src/util.rs:8-16 | up to 131072 bytes and an initial value up to 0xffff the accumulator stays below 2^32 |
| `Checksum.CksumIsFolded` | src/util.rs:17-20 | adding everything up and folding afterwards is ones'-complement addition with end-around carry |
| `Checksum.CksumChains` | src/tcp.rs:526-529 | chaining through the inverted partial sum is the checksum of the concatenation, if the first part is even |
| `Checksum.FilledFieldVerifies` | src/tcp.rs:526-529 | filling a zeroed field at an even offset with the checksum, or with 0xffff for zero, makes verification return 0 |
| `Checksum.ChangedWordVerifiesIff` | src/util.rs:7-21 | a verified buffer with one aligned word changed verifies exactly if the word is the same or the other zero of ones'-complement arithmetic |
| `PacketBuffers.BuildPacket` | src/ip.rs:290-316 | the buffer, written field by field, is the specified packet; too long is an error |
| `PacketBuffers.BuildPseudo` | src/tcp.rs:81-88 | the pseudo header |
| `PacketBuffers.OutputSegment` | src/tcp.rs:503-534 | the segment buffer, written field by field, is the specified segment |
| `PacketBuffers.OutputDatagram` | src/udp.rs:297-318 | the datagram buffer, with 0xffff for a checksum of zero |
| `Packets.FlagsRoundTrip` | src/tcp.rs:77-79 | the flag byte reads back as the same six flags |
| `Packets.IpRoundTrip` | src/ip.rs:449-504 | build_packet then input, with any trailing padding, hands on the same protocol, addresses and payload |
| `Packets.TcpRoundTrip` | src/tcp.rs:892-942 | output_segment then input gives the same endpoints, sequence number, ACK, flags, window and text |
| `Packets.PacketRoundTrip` | src/tcp.rs:503-535 | both together, for every header value and every text that fits |
| `Packets.UdpRoundTrip` | src/udp.rs:181-207 | UDP output then input gives the same endpoints and data, and the checksum field is never zero |
| `Packets.DatagramRoundTrip` | src/udp.rs:297-320 | the same through the IP layer |
| `PacketChecks.ChangedSegmentIsDropped` | src/tcp.rs:892-915 | a built segment with one aligned word changed is dropped |
| `PacketChecks.ChangedDatagramIsDropped` | src/udp.rs:181-206 | a built datagram with one aligned word changed is dropped, unless its checksum was changed to zero |
| `PacketChecks.ZeroedChecksumIsTaken` | src/udp.rs:181-206 | a built datagram whose checksum was changed to zero is taken |
| `PacketChecks.ChangedHeaderIsDropped` | src/ip.rs:449-500 | a built IP packet with one aligned word of its header changed, after the first, is dropped |
| `PacketChecks.HandedIsSound` | src/ip.rs:449-500 | what IP hands on has version 4, a header checksum that adds up, no fragment offset or flag, one of this host's addresses, and a payload of the stated length |
| `PacketChecks.DatagramIff` | src/udp.rs:181-206 | a datagram is taken exactly if its header states its length and its checksum, unless zero, adds up; then with its own endpoints and data |
| `PacketChecks.ArrivedIsSound` | src/tcp.rs:892-915 | a segment that arrives had a checksum that adds up and no broadcast address |
| `Arp.Cache.Select` | src/arp.rs:45-53 | the first entry for the address |
| `Arp.Cache.Update` | src/arp.rs:55-67 | the first entry for the address becomes resolved with the new hardware address and time |
| `Arp.Cache.Insert` | src/arp.rs:69-103 | appends, or replaces the oldest entry that is not static, or nothing |
| `Arp.Cache.OnTimer` | src/arp.rs:144-159 | the walk that removes while it goes leaves exactly the filtered cache |
| `Arp.Cache.ResolveAddress` | src/arp.rs:126-142 | the answer, and for an unknown address the incomplete entry and the bytes of the request |
| `Arp.Cache.Input` | src/arp.rs:279-339 | validation, update or insertion, and the bytes of the reply |
| `Arp.Build` | src/arp.rs:105-124 | the packet buffer, written field by field, is the specified packet |
| `Arp.PacketReads` | src/arp.rs:282-313 | what is built passes the validation and reads back, with any padding |
| `Arp.ExchangeResolves` | src/arp.rs:126-339 | the whole exchange between two hosts: the request makes the target know the sender and answer, and the answer makes the sender know the target |
| `Arp.EvictsOldest` | src/arp.rs:82-102 | an insertion into a full cache replaces exactly the oldest entry that is not static, the first of several |
| `Arp.ExpireExact` | src/arp.rs:144-159 | exactly the static entries and those younger than 30 seconds remain, in their order |
| `Arp.CacheAgrees` | src/arp.rs:317-338 | every run: at most 32 entries, one per address, each resolved one holding the sender hardware address and the moment of the most recent valid packet from its address |
| `Arp.AnswersAreHeard` | src/arp.rs:126-131 | whatever resolve answers is what the most recent valid packet from that address said |
| `Arp.ParsesIff` | src/arp.rs:282-313 | a packet is taken exactly if it is long enough and says Ethernet and IP with their address lengths; its fields are those of the bytes |
| `Arp.AnswersIff` | src/arp.rs:329-338 | exactly the requests for the own address are answered, to the one who asked |
| `Arp.StrangersOnlyRefresh` | src/arp.rs:317-334 | a packet for somebody else never enters an address |
| `ArpSections.AnswersAreLatest` | src/arp.rs:126-142 | in every interleaving of locked sections that the lock and the one dispatching thread allow, on a clock that advances between two sections of the inputs: whatever resolve answers is what the most recent valid packet from that address said |
| `ArpSections.CacheStaysOrdered` | src/arp.rs:317-338 | in the same runs the cache has at most 32 entries, and of two resolved entries for one address the first is the younger |
| `ArpSections.InsertUniqueIff` | src/arp.rs:69-103 | an insertion keeps one entry per address exactly if no entry for it is there, other than the one it evicts |
| `ArpSections.StaysUniqueIff` | src/arp.rs:126-142 | a section keeps one entry per address, unless it is an insertion, of an input or of a lookup, that finds an entry for its address other than the one it evicts: exactly then a second one arises |
| `ArpSections.EnterFindsAwaited` | src/arp.rs:317-334 | what the insertion of an input finds there already is an incomplete entry, so it comes from a lookup |
| `ArpSections.LookupInBetween` | src/arp.rs:317-334 | a lookup between the update and the insertion of an input leaves the address there twice, and resolve has no answer although the packet was heard |
| `ArpSections.TieGoesStale` | src/arp.rs:82-99 | on a clock that stands still, an eviction takes the younger of two entries and resolve answers with the older packet |
| `Arp.LostIff` | src/arp.rs:69-103 | an address leaves the cache exactly by a sweep that finds it 30 seconds old, or by an insertion that finds the cache full and it the oldest |
| `Udp.Table.PcbAlloc` | src/udp.rs:92-105 | the first free slot, or a new one up to 16 |
| `Udp.Table.PcbSelect` | src/udp.rs:122-131 | the first live block that matches |
| `Udp.Table.CloseBlock` | src/udp.rs:107-113 | the slot is freed and its task notified |
| `Udp.Table.BindTo` | src/udp.rs:149-169 | bind and its two failures |
| `Udp.Table.AssignPort` | src/udp.rs:282-295 | the first dynamic port that no block matches |
| `Udp.Table.PrepareSend` | src/udp.rs:322-337 | an unbound block gets a dynamic port before it sends |
| `Udp.Table.Enqueue` | src/udp.rs:217-252 | the locked section of input equals its function; `Udp.InputReaches` and `Udp.InputWithoutBlock` say what that does |
| `Udp.Table.ReceivePass` | src/udp.rs:257-274 | one locked pass of recvfrom |
| `Udp.OpKeeps` | src/udp.rs:92-169 | no operation lets two live blocks on one nonzero port share an address or use the wildcard |
| `Udp.OneMatch` | src/udp.rs:122-131 | every run: a datagram to a nonzero port and a specific address selects the one block that matches, and none only if none does |
| `Udp.InputReaches` | src/udp.rs:217-252 | every run: a datagram to a nonzero port and a specific address joins the queue of the block bound there, behind what is queued; every other block and counter stays; its task is to be notified |
| `Udp.InputWithoutBlock` | src/udp.rs:217-235 | without such a block nothing changes and nobody is notified |
| `Udp.OpenReturns` | src/udp.rs:92-105 | open returns a fresh, unbound block exactly if one of the 16 slots is free, and leaves all others |
| `Udp.ReceiveIff` | src/udp.rs:257-274 | recvfrom waits exactly on a live block without datagrams, fails exactly without a block, and otherwise takes the first |
| `Udp.BindIff` | src/udp.rs:149-169 | bind succeeds exactly on a live block if no live block holds the port with this address or a wildcard |
| `Udp.SendFrom` | src/udp.rs:322-337 | the endpoint sendto names is the block's from then on, with a dynamic port that was free; it fails exactly without a block or a port |
| `Udp.OrderIrrelevant` | src/udp.rs:122-131 | so the order of the table does not matter |
| `Udp.DatagramsInOrder` | src/udp.rs:236-274 | every run: what was sent to the endpoint of a live block is what its recvfrom handed out followed by its queue, and no block hands out anything else |

## Left out

- Signals, POSIX timers, device drivers, interrupts and file descriptors: the clock, timer ticks and random numbers are inputs.
- Logging and every `print` function; the option loop of the TCP one would also panic on a header length below 20.
- Devices, Ethernet framing and protocol dispatch: the IP layer is a set of packets handed down, with a verdict for the SYN of open and connect only.
- ICMP echo and errors, and the socket calls of `src/sock.rs`, which only pass descriptors on to TCP and UDP.
- The part of the UDP `sendto` after its locked section, and the route lookup in it.
- Routing and interface registration: the route's address and segment size are inputs.
- TCP options, urgent data, security and precedence: the source ignores them; the urgent fields are not modelled.
- Several incarnations of one endpoint pair, and descriptors opened again: the end-to-end theorems are about one incarnation. For two whole tables this is the hypothesis that what a followed block is handed was sent by the other followed block or is a bare reset.
- Progress: nothing is said about how soon a retransmission, a wake-up or a timer run comes, only about what holds whenever one does.
- Blocks are values in a sequence that the class `TcpStack.Stack` reassigns; aliasing of a block with itself is not modelled. All packets of a section go to one set, so their order is not recorded, and one section reads the clock once.
- The waiting loops of open, connect, accept, send, receive and recvfrom are not run as loops: each locked pass is a step of its own, and passes of different threads interleave.
- A packet counts as handed down even if the IP layer then refuses it, which only gives the network more to deliver.
- Overflow of the 32-bit count of waiting threads, and of `Duration` arithmetic: both are natural numbers here.
- Big-endian machines: the checksum reads words as a little-endian machine does.
- TcpBlocking.NoLostWakeup: says of a blocked `send` only that its connection is in ESTABLISHED or CLOSE_WAIT, because the source does not notify a sender whose window opens; and says nothing of a thread on whose descriptor another thread starts or gives up a connect, which the source does not notify either.
- UdpBlocking.NoLostWakeup: a notification that input has not raised yet counts as pending.
- Packets.TcpRoundTrip: a header length beyond the segment makes the source panic; the model records that as an outcome and claims nothing about it.
- Arp.CacheAgrees: each event is atomic, while the source takes the cache lock once per step of `resolve` and of `input`; at that granularity one entry per address is false, and `ArpSections` says what holds instead.
- Arp.AnswersAreHeard: is about atomic events too; `ArpSections.AnswersAreLatest` is the same at the granularity of the lock.
