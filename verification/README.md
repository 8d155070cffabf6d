# A verified model of the Cisco 2811 Linux support

The repository runs Linux on a Cisco 2811 router and turns its NM-32A module (eight
CD2481 serial controllers, 32 ports) into a console server. This project models the
parts whose correctness depends on interleavings, wrap-around or packing, and proves
what they promise.

- **Cd2481, Nm32a, Nm32aTraces, TxStream, TxRing, Storm** - the NM-32A driver. `Cd2481` is the chip:
  request registers, the interrupt-context stack, channel select, FIFOs. An access the
  datasheet forbids sets `fault`. `Nm32a.Card` is the driver, method by method; before
  every register access `Tick` runs an arbitrary list of outside events (bytes arriving,
  requests rising or vanishing, tty writers, breaks, time), so each contract holds for
  every interleaving. `Inv` is the state invariant and `RunGuarantee` says what it gives
  in every reachable state. `TxRing.Ring` is the transmit ring as an array with wrapping
  indices, proved to be the queue that `TxStream` reasons about; `TxStream` also holds
  the chip-side decoder of embedded transmit commands. `Storm` is the exception limiter.
  `Nm32aTraces` holds three concrete runs.
- **Tftp, TftpSender, TftpOptions** - the TFTP server. `Tftp` is the server as a reactive
  machine, an RFC 1350 client, and two FIFO channels that lose and duplicate; `TftpSender`
  is the nested retransmission loops, proved packet for packet to be that machine;
  `TftpOptions` is the request parser and the block-size clamp.
- **Irq** - interrupt dispatch, with a ranking argument that bounds fruitless dispatches.
- **Telnet** - the in-place filter against an out-of-place token grammar, and the
  chunked escaper.
- **Ucode, UcodeLoader** - the 18-bit microcode stream and its download into the chip.
- **CompactFlash** - task-file loads through halfword register pairs, and the data port.
- **PciConfig** - sized configuration accesses over the swapped address/data pair.

## Assumptions

- The PILRs are equal and `eoiretry` is 1; the acknowledge reaches the chip being
  polled; receive outranks transmit. A chip ignores at most 100 EOIR writes.
- A request may vanish before it is acknowledged (the driver's second look allows for
  that); once acknowledged it stays until its EOIR.
- `hw_lock` excludes the other users of the registers during a service, and a port's own
  lock excludes its writers during a transmit drain. Between services anything may run.
- InitCh resets the transmitter, so a stream starts outside an escape;
  `TxStream.OpenEscapeSpoilsNext` says what happens if it does not.
- Time is an unbounded monotone clock; `HZ` is 250. The receive threshold is its
  default, 1. The four bit-rate registers a speed maps to are a parameter.
- TFTP channels keep order; a packet may be lost or duplicated any number of times.
- The CompactFlash data register (the low byte of the first pair) has no effect outside
  a data phase; a device may change its own address registers at any time.
- A configuration word that no device answers for reads as all ones and ignores writes.
- The store pointer of the CD2481 restarts when data-write mode is entered.

## Where the code and its words differ

- Channel init writes COR2 = 0x00, so embedded transmit commands are off, while the
  write path escapes NUL for them. `TxStream.EtcOffExactlyPlainText` says for which
  streams that is harmless, `Nm32a.RunGuarantee` that an open port is always in this case,
  and the run `Nm32aTraces.BreakGoesOutAsData` shows a break sent as two characters.
- `nm32a_break_ctl` reports success also when the ring has no room and nothing is queued;
  a break-off lost this way leaves the line in break: `TxStream.BreakTakenExactly`,
  `TxStream.LostBreakOff`.
- A muted receiver is switched back on by the idle transmit path (IER = 0x28) and by a
  speed change (IER = 0x09), and no later storm switches it off again:
  `Nm32a.TransmitGates`, `Nm32a.SpeedUnmutes`, `Nm32a.MutedListensExactly`,
  `Nm32a.StormsDoNotRestore`, and the run `Nm32aTraces.MutedPortListensAgain`.
- The idle path also runs when the FIFO offers no room while bytes are queued; the ring
  then waits for the next `nm32a_arm_tx`: `Nm32a.TransmitGates` and the run
  `Nm32aTraces.QueuedPortStopsAsking`.
- The comment on ending exceptions with NoTrans is out of date: receive services always
  end with 0x00.
- The telnet filter looks for 0xFF 0xF0 byte by byte, so a subnegotiation whose body
  holds a doubled 0xFF followed by 0xF0 (legal by RFC 855) ends early:
  `Telnet.SubnegotiationSkipped`, `Telnet.SubnegotiationLeaks`, `Telnet.LeakIsEmptyExactly`.
- The block-size clamp answers with more than was asked for when a client asks for fewer
  than eight bytes: `TftpOptions.BlockSize`.
- A bare `c2811_set_devctl` leaves `last_ctl` stale; `CompactFlash.ControlWriteSkipped`
  says when the skipped control write then matters and `CompactFlash.CacheWrongExactly`
  which histories lead there.

## Model

| member | source | states |
|---|---|---|
| Nm32a.RunGuarantee | kernel/cisco2811/nm32a.c:1836-2116 | in every reachable state, for every port: no forbidden chip access was ever made; bytes sent since activation plus the ring are exactly the encoding of the accepted writes and breaks; an open port has embedded commands off, so the chip takes its bytes literally, which is right for plain text only, and it listens unless muted; every arrived character is in the FIFO, in a service's hands or in the record of one service; the tty was given, in order, the characters of exactly the services that were no error and found the port open; an error service popped one character if the FIFO held any; exceptions counted since activation are the error services since then; a muted port saw 200 of them within HZ, and 399 within HZ always mute |
| Nm32a.Card.Service | kernel/cisco2811/nm32a.c:1836-2116 | one call either performs exactly the one service the chip granted, on the granted channel and of the granted type, moving no more bytes than the room offered, or moves no data, writes no EOIR and ends no context on any chip; it serves exactly if a request was seen at both looks and one is left at the acknowledge, receive before transmit; no context is left open; `st_nogrant` goes up exactly when an acknowledge was made and nothing served, `st_misgrant` exactly when what was served is not the type RIR announced |
| Nm32a.Card.PollThread | kernel/cisco2811/nm32a.c:2118-2154 | any number of sweeps over the eight chips in turn, with other threads free to open, close, reprogram and write in between: a chip found with an open port is swept as SweepChip says, any other is not driven; no context is left open, each port's record is the chip's own list of finished receive contexts, and the records, the bytes sent and the bytes popped only grow |
| Nm32a.Card.SweepChip | kernel/cisco2811/nm32a.c:2135-2153 | every open channel with bytes queued is armed, then services are performed until the burst is used up or one saw no request twice or found none left at its acknowledge |
| Nm32a.StretchAccounts | kernel/cisco2811/nm32a.c:2118-2154 | over any stretch of the run, what a port's tty was given and what left its FIFO are those of the services recorded in it: delivered exactly if no error and the port open, none lost, none twice |
| Nm32a.ServedRecords | kernel/cisco2811/nm32a.c:1977-2089 | each receive context the chip ends gets exactly one entry in the record of the port it belongs to, with the cause, the count RFOC answered and the number of characters the chip saw read; and a channel has sent as many bytes as its finished transmit contexts moved |
| Nm32a.StretchDrains | kernel/cisco2811/nm32a.c:2095-2154 | over any stretch of the run in one activation, the L bytes queued at its start have all gone out, in order, once L transmit grants have offered a slot, whatever writers add |
| Nm32a.Card.Transmit | kernel/cisco2811/nm32a.c:2091-2107 | sends the oldest bytes of the ring as it was when its lock was taken, as many as room, ring and 16 allow, and ends with NoTrans exactly if none moved, dropping TxD then |
| Nm32a.Card.ReceiveError | kernel/cisco2811/nm32a.c:2016-2059 | an error service drops one character exactly if RFOC reported any, which it does whenever the FIFO held one at entry; it delivers nothing, ends with REOIR and counts one exception |
| Nm32a.Card.ReceiveTimeout | kernel/cisco2811/nm32a.c:2028-2043 | a timeout takes everything the FIFO held, delivers it if the port is open and never counts as an exception |
| Nm32a.Card.ReceiveGood | kernel/cisco2811/nm32a.c:2061-2114 | good data takes everything the FIFO held and delivers it after the lock is released, to the port if it is still open then |
| Nm32a.Card.ReadAll | kernel/cisco2811/nm32a.c:2076-2081 | reads the latched count of characters in order while more keep arriving, and never reads an empty FIFO |
| Nm32a.Card.Eoi | kernel/cisco2811/nm32a.c:1796-1810 | pops exactly the one open context, with one write more than the chip ignored, whatever happens between the accesses |
| Nm32a.Card.Confirm | kernel/cisco2811/nm32a.c:1855-1897 | a chip is acknowledged exactly if TIR or RIR showed a request at both looks; receive is expected exactly if RIR still shows it at the last read; looking changes nothing |
| Nm32a.Card.Grant | kernel/cisco2811/nm32a.c:1903-1911 | one acknowledge; the two reads after it tell which context is open, with its channel and vector |
| Nm32a.Card.WriteChannel | kernel/cisco2811/nm32a.c:2103-2104 | a per-channel write changes that register of the channel the chip aims at, which every caller must show to be the intended one; callers must also show that it leaves an open port listening unless muted, and embedded commands off |
| Nm32a.Card.SelectAndProgram | kernel/cisco2811/nm32a.c:2216-2222 | after a CAR write outside any context the writes land on the selected channel and on no other |
| Nm32a.Card.RxException | kernel/cisco2811/nm32a.c:1756-1774 | counts one exception and turns the receiver off on the intended channel exactly when this one crosses the limit |
| Nm32a.Card.ArmTx | kernel/cisco2811/nm32a.c:1708-1726 | every open channel of the chip with bytes queued is armed, with receive service exactly if not muted; another channel of the chip is armed only if a writer queued bytes meanwhile; no other register of any channel of any chip changes and no data moves |
| Nm32a.Card.Activate | kernel/cisco2811/nm32a.c:2233-2275 | refuses a chip without microcode and changes nothing at all then; else that channel has the init image at the rate asked for, an empty ring and a fresh exception window |
| Nm32a.Card.Shutdown | kernel/cisco2811/nm32a.c:2277-2292 | the port is closed, its channel asks for no service and DTR and RTS are both down; no other register of it or of any other channel changes |
| Nm32a.Card.DtrRts | kernel/cisco2811/nm32a.c:2224-2231 | MSVR-DTR holds bit 1 and MSVR-RTS bit 0 exactly if `active`, and every other register of that channel and of any other is as it was |
| Nm32a.Card.SetTermios | kernel/cisco2811/nm32a.c:2414-2431 | the channel has the rate asked for and asks for receive and transmit service again; only its rate, command and interrupt registers are written and no data moves |
| Nm32a.TransmitGates | kernel/cisco2811/nm32a.c:2095-2105 | for any channel: after a transmit service it listens exactly if it did before, or the ring was empty, or TFTC offered no room; it still asks for transmit service exactly if it did before and there were bytes and room |
| Nm32a.Card.Tick | kernel/cisco2811/nm32a.c:1836-2116 | whatever runs between two accesses keeps the invariant, the open context, all registers and a locked port's ring |
| Nm32a.PerturbKeeps | kernel/cisco2811/nm32a.c:1836-2116 | one outside event keeps the invariant and everything the driver relies on |
| Nm32a.PoppedGrows | kernel/cisco2811/nm32a.c:1977-2089 | the entry a receive service records is exactly what that service popped from its channel's FIFO |
| Nm32a.InitImage | kernel/cisco2811/nm32a.c:1619-1685 | an opened channel asks for receive, timeout and transmit service and has embedded transmit commands off |
| Nm32a.OpenImage | kernel/cisco2811/nm32a.c:1619-1685 | the whole image of an opened channel: asynchronous, eight bits, no parity, one stop bit, the rate asked for, no translation or stripping, both directions enabled, both modem lines up |
| Nm32a.SpeedImage | kernel/cisco2811/nm32a.c:2423-2429 | a speed change leaves the rate asked for, both directions enabled and IER at 0x09, and every other register as it was |
| Nm32a.ErroneousInBits | kernel/cisco2811/nm32a.c:2001-2053 | a receive service is an error exactly if RIR bits 3 and 2 are not both set and RISR bit 7 is clear |
| Nm32a.RegistersInBits | kernel/cisco2811/nm32a.c:1680-1685 | IER bit 3 asks for receive and bit 0 for transmit service; COR2 bit 5 turns embedded commands on |
| Nm32a.LastWriteWins | kernel/cisco2811/nm32a.c:1619-1685 | the register image holds the last value an ordered list of writes gave each register |
| Nm32a.IdleUnmutes | kernel/cisco2811/nm32a.c:2103-2104 | in particular a muted channel armed for transmit listens again exactly if the ring was empty or TFTC offered no room |
| Nm32aTraces.MutedPortListensAgain | kernel/cisco2811/nm32a.c:2095-2105 | a run from power-on through 200 exceptions: the muted port, with nothing to send, asks for receive service again |
| Nm32aTraces.QueuedPortStopsAsking | kernel/cisco2811/nm32a.c:2095-2105 | a run from power-on: a port just opened, not muted, ends with a byte queued and transmit service no longer requested |
| Nm32aTraces.BreakGoesOutAsData | kernel/cisco2811/nm32a.c:1627 | a run from power-on: a break accepted on a port just opened goes out as the two characters 0x00 and 0x81 |
| Nm32a.SpeedUnmutes | kernel/cisco2811/nm32a.c:2422-2429 | a speed change makes any channel listen, muted or not |
| Nm32a.MutedListensExactly | kernel/cisco2811/nm32a.c:1756-1774 | over any history of opens, closes, arms, idle ends, speed changes and exceptions that starts unmuted and ends muted: the channel listens exactly if the last of them to write IER was an idle end or a speed change |
| Nm32a.StormsDoNotRestore | kernel/cisco2811/nm32a.c:1765-1769 | once muted, no number of further exceptions writes IER, so a lifted mute is not restored |
| Nm32a.ExceptionGate | kernel/cisco2811/nm32a.c:1756-1774 | what RxException does to detector and IER is the exception step of those histories |
| Nm32a.TransmitGate | kernel/cisco2811/nm32a.c:2095-2105 | what a transmit service does to them is the idle step exactly if the ring was empty or there was no room, else nothing |
| Nm32a.ArmGate | kernel/cisco2811/nm32a.c:1708-1726 | arming a port with bytes queued is the arm step |
| Cd2481.GrantIsReadable | docs/NM32A.md:127-138 | the reads after the acknowledge name the granted service and channel, and show none exactly if nothing was waiting |
| Cd2481.TestsInBits | kernel/cisco2811/nm32a.c:1945-2028 | the tests on RIR, TIR, RISR and STK are those of the driver's masks, bit by bit |
| Cd2481.PreAcknowledgeDecisionRaces | kernel/cisco2811/nm32a.c:1913-1942 | branching on the read before the acknowledge makes a forbidden access exactly if the receive request changed in between |
| Cd2481.DeafPortTrace | docs/FINDINGS.md:246-253 | the concrete trace: transmit pending, a byte lands, and the receive context is never ended |
| Cd2481.HappenKeeps | docs/NM32A.md:99-126 | nothing the chip does on its own disturbs an open context, a register or what was sent and popped |
| Cd2481.EoiExact | kernel/cisco2811/nm32a.c:1796-1810 | the handshake pops its context exactly if the chip ignores at most 100 writes, in at most 101 writes, none of them after the pop |
| TxRing.Ring.Space | kernel/cisco2811/nm32a.c:2324-2329 | the free count is 1023 minus the queue length, also when `head - tail` wraps as an unsigned |
| TxRing.Ring.Put | kernel/cisco2811/nm32a.c:2331-2335 | appends one byte to the queue |
| TxRing.Ring.TtyWrite | kernel/cisco2811/nm32a.c:2365-2401 | appends the encoding of exactly the reported prefix |
| TxRing.Ring.BreakCtl | kernel/cisco2811/nm32a.c:2349-2363 | appends both bytes of the break escape or, with fewer than two free slots, nothing, and reports success either way |
| TxStream.BreakTakenExactly | kernel/cisco2811/nm32a.c:2349-2363 | a break is taken exactly if at least two slots are free; otherwise nothing changes |
| TxStream.LostBreakOff | kernel/cisco2811/nm32a.c:2349-2363 | a call that ends a break leaves the line in break exactly if it was in break and the ring had fewer than two free slots |
| TxRing.Ring.Drain | kernel/cisco2811/nm32a.c:2096-2102 | writes out the oldest bytes, as many as room, 16 and the queue allow, and keeps the rest |
| TxRing.Ring.Reset | kernel/cisco2811/nm32a.c:2268 | activation empties the ring |
| TxStream.AcceptedIsLongestFit | kernel/cisco2811/nm32a.c:2374-2388 | a write takes the longest prefix whose encoding fits |
| TxStream.StepConserves | kernel/cisco2811/nm32a.c:2095-2106 | writes, breaks and services keep sent plus queued equal to the encoding of what was accepted |
| TxStream.DecodeEncode | kernel/cisco2811/nm32a.c:2374-2388 | with embedded commands on, decoding inverts encoding and ends between tokens |
| TxStream.WireForm | kernel/cisco2811/nm32a.c:2357-2387 | the escapes byte for byte: NUL 00 00, break on 00 81, break off 00 83, any other byte itself |
| TxStream.DecodeFaithful | kernel/cisco2811/nm32a.c:2374-2388 | the other direction: whatever items a decoder makes of a stream encode to exactly the bytes it took, so no two item lists share an encoding |
| TxStream.DecodeCut | kernel/cisco2811/nm32a.c:2099-2102 | cutting the stream anywhere, also inside an escape, yields the first items unaltered with at most a lone escape pending |
| TxStream.WireCarriesAccepted | kernel/cisco2811/nm32a.c:2095-2106 | over every interleaving the chip decodes a prefix of the accepted writes and breaks, all of them once the ring is empty |
| TxStream.EtcOffExactlyPlainText | kernel/cisco2811/nm32a.c:1627 | with embedded commands off the line is right exactly for streams without NUL and without breaks |
| TxStream.ConservedLiteral | kernel/cisco2811/nm32a.c:1627 | with embedded commands off a conserving line carries a prefix of plain text however services cut it, and once drained carries what was accepted exactly if that is plain |
| TxStream.OpenEscapeSpoilsNext | kernel/cisco2811/nm32a.c:2268 | after an activation that does not reset the transmitter, what is accepted next comes out right exactly if no escape was left open |
| TxStream.DrainsWithinLength | kernel/cisco2811/nm32a.c:2095-2106 | L queued bytes drain in at most L services that each offer a slot |
| Storm.StormIsMuted | kernel/cisco2811/nm32a.c:1756-1774 | 399 counted exceptions within a closed interval of HZ jiffies end muted |
| Storm.OneFewerIsNotMuted | kernel/cisco2811/nm32a.c:1756-1774 | 398 do not suffice |
| Storm.MutedOnlyByStorm | kernel/cisco2811/nm32a.c:1756-1774 | muting takes 200 exceptions within one closed interval of HZ jiffies |
| Storm.StaysMuted | kernel/cisco2811/nm32a.c:1765-1768 | within one activation the mute is never undone by further exceptions |
| Tftp.TransferSafe | tools/host/tftp_send.py:177-208 | for every file, block size and history of loss, duplication, timeouts and give-ups: the client holds a prefix of the file, the whole file when done and when the server reports success, after floor(size/blksize)+1 blocks, and everything in flight belongs to two consecutive blocks |
| Tftp.TransferIsPossible | tools/host/tftp_send.py:177-208 | for every file, block size and choice of options some run ends with both sides done and the whole file across |
| Tftp.StepKeeps | tools/host/tftp_send.py:177-208 | every step of server, client or channel keeps the window invariant |
| Tftp.WireIsExact | tools/host/tftp_send.py:197 | two consecutive absolute blocks never share a 16-bit number, across any number of rollovers |
| Tftp.ShortIsLast | tools/host/tftp_send.py:201-202 | a block is short exactly if it is the last one |
| Tftp.ReadsIsQuotient | tools/host/tftp_send.py:178-202 | reading until a short block takes floor(size/blksize)+1 reads |
| Tftp.NextBlock | tools/host/tftp_send.py:179-203 | the blocks, in order, are the file |
| Tftp.ServerEnds | tools/host/tftp_send.py:183-198 | only an acknowledgement of the current absolute block moves the server on |
| Tftp.ClientEnds | tools/host/tftp_send.py:179-203 | a receiver in the window takes the expected block once and recognises the previous one as a duplicate |
| TftpSender.ServeOne | tools/host/tftp_send.py:150-208 | the loops send exactly the packets of the reactive server and return what it returns; success means every byte was counted as sent |
| TftpSender.NegotiationExactly | tools/host/tftp_send.py:157-175 | until an error packet, an acknowledgement of block 0 or the deadline the server waits, with one OACK out more than there were timeouts; those then bring failure, block 1, and failure |
| TftpSender.TransferCompletes | tools/host/tftp_send.py:157-208 | if every block is acknowledged in its turn, with at most ten timeouts a block and no error packet, whatever else arrives, the result is success and each block has gone out once plus once for each thing that arrived in its turn |
| TftpSender.TransferFails | tools/host/tftp_send.py:185-196 | an error packet or the eleventh timeout in any block's turn ends in failure with nothing more sent |
| TftpSender.SuccessDelivers | tools/host/tftp_send.py:150-208 | in any run over the lossy, duplicating channels the server is where the loops are after the same receive events, so when the loops report success the client holds the whole file |
| TftpSender.SendBlock | tools/host/tftp_send.py:181-199 | one block is resent until its acknowledgement, an error packet or the eleventh timeout, as the reactive server does |
| TftpSender.AwaitAccept | tools/host/tftp_send.py:157-175 | the OACK is resent on timeout until block 0 is acknowledged, rejected or the deadline passes |
| TftpSender.PlayOver | tools/host/tftp_send.py:205-208 | nothing that arrives after the return changes anything |
| TftpOptions.ParseOpts | tools/host/tftp_send.py:42-52 | the loop computes the specified name, mode and options of any payload |
| TftpOptions.ParseUndoesPack | tools/host/tftp_send.py:42-52 | parsing a packed request gives back name, mode in lower case, and each option's last value under its lower-case name, empty fields included |
| TftpOptions.ShortRequests | tools/host/tftp_send.py:44-51 | without a mode the request is for octets, and an option name without a value is ignored |
| TftpOptions.LowerLetters | tools/host/tftp_send.py:47-51 | capital letters, accented ones included, become small ones and nothing else changes |
| TftpOptions.SplitFields | tools/host/tftp_send.py:44-45 | splitting at NUL gives back NUL-terminated fields and one empty rest |
| TftpOptions.BlockSize | tools/host/tftp_send.py:145 | the smaller of limit and request if both are at least eight, else eight; so at most the requested size exactly for requests of at least eight |
| Irq.LivelockBound | kernel/cisco2811/irq.c:45-63 | in any run that enables no source or line at most 64 + 5 cascade dispatches run no handler |
| Irq.DispatchExactly | kernel/cisco2811/irq.c:29-67 | each outcome exactly on its inputs, bit by bit: timer if line 7 is on; else, with a cascade line on, the lowest due source is handled if claimed and masked if not, and with none due exactly the asserted lines are switched off; spurious otherwise; with the change of state of each |
| Irq.DemuxExactly | kernel/cisco2811/mv64340_irq.c:122-169 | the first due source runs its handler with nothing changed if it is claimed, and has just its own mask bit cleared if not |
| Irq.BoundIsReached | kernel/cisco2811/irq.c:45-63 | the rank is exact: from any state with a cascade line enabled, the timer line on or off, some run wastes as many dispatches as it says |
| Irq.DispatchRanks | kernel/cisco2811/mv64340_irq.c:122-169 | each fruitless dispatch disables at least one source or line and none enables any |
| Irq.HandlerIsDue | kernel/cisco2811/mv64340_irq.c:145-168 | a handler only runs for a claimed, asserted, unmasked source |
| Irq.Board.MvDispatch | kernel/cisco2811/mv64340_irq.c:122-169 | handles the lowest enabled pending source if it is claimed and masks just it if not, low word first, and says whether there was one |
| Irq.Board.PlatIrqDispatch | kernel/cisco2811/irq.c:29-67 | timer first, then the demultiplexer, then masking of the asserted cascade lines, exactly as specified |
| Irq.Board.CascadeRunaway | kernel/cisco2811/irq.c:76-86 | exactly the pending lines IP2 to IP6 are disabled and remembered |
| Irq.Board.IrqMask | kernel/cisco2811/mv64340_irq.c:94-100 | that source is disabled, and no other source and nothing else changes |
| Irq.Board.IrqUnmask | kernel/cisco2811/mv64340_irq.c:102-108 | the source is enabled and no other changes; masking undoes it |
| Irq.Board.Ffs | kernel/cisco2811/mv64340_irq.c:129-132 | finds the lowest set bit |
| Telnet.TelnetFilter | tools/nm32a/nmconsole.c:109-167 | in place, for every buffer: the data kept and the replies in order are those of the grammar's parse of the original, and so are the breaks if a console is open; without one there is none |
| Telnet.MeaningInBytes | tools/nm32a/nmconsole.c:113-165 | of any legal commands: one reply for each negotiation, in order, 255 252 option for DO and DONT and 255 254 option for WILL and WONT; a break for each 255 243 and 255 244; data for plain bytes and doubled 255; nothing for anything else |
| Telnet.FilterInBytes | tools/nm32a/nmconsole.c:109-167 | and that is what the filter makes of them, whatever unfinished command follows |
| Telnet.FilterOne | tools/nm32a/nmconsole.c:113-165 | one turn of the loop consumes one token and never writes a byte it has not read |
| Telnet.ParseIsFaithful | tools/nm32a/nmconsole.c:113-165 | a parse consists of legal tokens whose bytes are a prefix of the buffer |
| Telnet.ParseLeavesUnfinished | tools/nm32a/nmconsole.c:118-132 | what a parse leaves over is one unfinished token, or nothing |
| Telnet.ParseInverts | tools/nm32a/nmconsole.c:113-165 | legal tokens written out, followed by an unfinished one, parse back to exactly those tokens |
| Telnet.TelnetWrite | tools/nm32a/nmconsole.c:170-186 | every chunk is the escaping of a piece of the input, whole pairs only, and the pieces are the input |
| Telnet.EscapeInBytes | tools/nm32a/nmconsole.c:175-178 | a byte of 255 goes out as two, any other as one |
| Telnet.ChunksReadBack | tools/nm32a/nmconsole.c:170-186 | filtering each chunk gives its piece with no reply and no break |
| Telnet.FilterUndoesEscape | tools/nm32a/nmconsole.c:170-186 | filtering any escaped data gives the data with no reply and no break |
| Telnet.SubnegotiationSkipped | tools/nm32a/nmconsole.c:156-160 | an RFC 855 subnegotiation is skipped as one token exactly if its parameters, before escaping, hold no 0xFF directly followed by 0xF0 |
| Telnet.SubnegotiationLeaks | tools/nm32a/nmconsole.c:156-160 | otherwise exactly the parameter bytes after the first 0xFF, 0xF0 reach the console, with no reply and no break |
| Telnet.LeakIsEmptyExactly | tools/nm32a/nmconsole.c:156-160 | nothing leaks exactly if the parameters hold no such pair before their last byte |
| Ucode.UnpackInvertsPack | kernel/cisco2811/nm32a.c:338-348 | unpacking gives back every packed instruction at every index |
| Ucode.PackInvertsUnpack | tools/extract_cd2481_ucode.py:51-59 | packing the unpacked instructions gives back a blob that holds a whole number of them |
| Ucode.UnpackReads | tools/nm32a/ucode.c:119-128 | instruction i is stream bits 18i to 18i+17, zero past the end: three bytes are always enough |
| Ucode.InsnAt | tools/nm32a/ucode.c:119-128 | the accumulating loop computes that instruction, for all three copies of it |
| UcodeLoader.Chip.Put | tools/nm32a/ucode.c:76-82 | one single step stores exactly the instruction that was split over the three registers |
| UcodeLoader.Chip.DlSetup | tools/nm32a/ucode.c:92-106 | either setup, from any state of the chip, leaves an empty store in data-write mode and stores nothing on the way |
| UcodeLoader.Chip.DlStart | tools/nm32a/ucode.c:108-116 | the jump is stepped twice and the chip runs the store as it was |
| UcodeLoader.Chip.Download | tools/nm32a/ucode.c:170-194 | the running chip holds every instruction of the file, topped up with 0x1E000 to 8192 |
| UcodeLoader.Chip.DriverDownload | kernel/cisco2811/nm32a.c:350-383 | the running chip holds the first 8192 instructions of the compiled-in image |
| UcodeLoader.DownloadDeliversProgram | tools/nm32a/ucode.c:170-194 | packing a program of any length and downloading it delivers the program |
| UcodeLoader.DriverAgreesWithTool | tools/gen_ucode_header.py:18-20 | driver and tool fill the store alike exactly for full-size images |
| CompactFlash.CommandFindsItsTaskFile | kernel/cisco2811/pata.c:105-142 | after any history a command finds the current registers, and for 48-bit the previous ones, equal to the task file loaded for it, and the device byte that came with it |
| CompactFlash.Port.RunAll | kernel/cisco2811/pata.c:105-142 | over any history the five two-deep registers hold the two youngest address blocks, commands start as the history says, and the control register and its cache end as the history says |
| CompactFlash.Port.TfLoad | kernel/cisco2811/pata.c:105-135 | the exact halfwords written, none to the command register: an address load moves in the task file, for LBA48 its hob values first, any other load no address; the device byte is left and control is written only if it differs from the cached value |
| CompactFlash.Port.ExecCommand | kernel/cisco2811/pata.c:137-142 | one halfword, opcode high and device byte low, sets the device byte and starts one command |
| CompactFlash.Port.SoftReset | kernel/cisco2811/pata.c:168-171 | pulses SRST once and leaves control and its cache equal |
| CompactFlash.ResetInBits | kernel/cisco2811/pata.c:168 | SRST is bit 2 of the control byte, and setting it changes no other bit |
| CompactFlash.OnlyExecStarts | kernel/cisco2811/pata.c:137-142 | as many commands start as were executed; no load, reset or control write starts one |
| CompactFlash.ControlWriteSkipped | kernel/cisco2811/pata.c:110-114 | every load leaves the control value it was given exactly if the cached value is the real one |
| CompactFlash.CacheWrongExactly | kernel/cisco2811/pata.c:105-153 | over any history from a right cache, the cached control value is wrong at the end exactly if a bare control write changed the register and nothing since mended it |
| CompactFlash.StaleControlTrace | kernel/cisco2811/pata.c:110-153 | a bare control write followed by a load of the cached value leaves the other value in the register |
| CompactFlash.BufferOrder | kernel/cisco2811/pata.c:206-220 | the words written lay the buffer on the medium in order, an odd end padded with zero, so reading its length back gives the buffer |
| CompactFlash.HalvesInBytes | kernel/cisco2811/pata.c:197-215 | even bytes of a buffer are the low halves of the words and odd bytes the high halves, both ways |
| CompactFlash.WordsUnique | kernel/cisco2811/pata.c:206-220 | no other words lay that padded buffer on the medium |
| CompactFlash.DataPort.XferOut | kernel/cisco2811/pata.c:189-221 | writes the words of the buffer, ceil(n/2) of them |
| CompactFlash.DataPort.XferIn | kernel/cisco2811/pata.c:189-221 | fills the buffer in place with the first n bytes of the medium, as far as the device has words, takes ceil(n/2) words and touches nothing beyond |
| CompactFlash.DataPort.OutAndBack | kernel/cisco2811/pata.c:189-221 | writing and reading back returns the same bytes for every length |
| PciConfig.Replay | kernel/cisco2811/pci.c:124-203 | over any sequence of accesses every read returns the latest value of each byte it covers, and every byte ends with its latest value |
| PciConfig.ReadBack | kernel/cisco2811/pci.c:147-203 | what was written reads back at the same place and size, cut to that size |
| PciConfig.Bridge.PciWrite | kernel/cisco2811/pci.c:172-203 | changes exactly the addressed bytes that some device answers for; an unreachable bus changes nothing |
| PciConfig.Bridge.PciRead | kernel/cisco2811/pci.c:147-170 | returns the covered bytes and zero above them; an unreachable bus answers all ones |
| PciConfig.Bridge.PciAddr | kernel/cisco2811/pci.c:134-145 | latches the word address, on bus 0 only |
| PciConfig.Bridge.MvWrite | kernel/cisco2811/pci.c:129-132 | the value reaches the little-endian register unswapped |
| PciConfig.SwabReverses | kernel/cisco2811/pci.c:124-132 | the byte swap reverses the four lanes |
| PciConfig.KeyInjective | kernel/cisco2811/pci.c:141-143 | two configuration bytes share an address word exactly if they are in the same word of the same device |
| PciConfig.KeyInBits | kernel/cisco2811/pci.c:141-143 | bit 31 enables, slot, function and register number stand at bits 11, 8 and 2, everything else is zero |
| PciConfig.MergeLanes | kernel/cisco2811/pci.c:185-196 | the merge replaces exactly the covered byte lanes |
| PciConfig.CoversExactly | kernel/cisco2811/pci.c:188-196 | a naturally aligned access covers exactly the bytes from its place on, as many as its size, each in its own lane |
| PciConfig.ExtractLanes | kernel/cisco2811/pci.c:162-167 | the value read holds each covered lane at its place |
| PciConfig.ValueUnique | kernel/cisco2811/pci.c:162-167 | the covered bytes and the zeros above them determine the value read |

## Left out

- Nm32a.Card.Service: the diagnostic counters other than `st_nogrant` and `st_misgrant`, tracing and the spacing delay between RDR reads are not modelled.
- Nm32a.Card.PollThread: the scheduling and sleeping at the end of a sweep are not modelled, so nothing is said about latency.
- Nm32a.Card.Activate: the global registers TPR, RTPRh and RTPRl and what InitCh does to a channel's FIFO are not modelled; a CCR command counts as a register write, and waiting for it to clear is left out.
- Nm32a.Card.Transmit: the card holds each port's ring as its contents; that an array with wrapping indices is such a queue is proved separately in TxRing.
- Nm32a.Card.ReadAll: the service's `rxbuf` is held as a sequence; that at most 31 characters are read, so 32 bytes are enough, follows from the FIFO bound.
- Nm32a.Card.RxException: the clock is read once per exception.
- Irq.Board.PlatIrqDispatch: the flow handler inside `do_IRQ`, which masks and unmasks the source it serves, is not modelled; registers are sets of bit numbers.
- Tftp.TransferSafe: safety only; a stale acknowledgement is answered by a resend and does not count as a try, so termination is not claimed. Channels that reorder are not modelled.
- TftpSender.ServeOne: packets are parsed values, so a datagram too short to unpack is not modelled; nor are sockets and the drain of the listener.
- TftpOptions.BlockSize: the requested size is a number; the conversion from text, which raises on malformed input, is not modelled.
- Telnet.TelnetFilter: sequences split over two buffers and partial writes are not modelled, and a break is counted rather than ordered against the data of its buffer.
- UcodeLoader.Chip.Download: the reset and the wait for the firmware revision that follow are not modelled, nor is the byte-lane option.
- CompactFlash.Port.TfLoad: the busy waits are not modelled.
- CompactFlash.DataPort.XferIn: bytes read beyond what the device has waiting are left undefined.
- PciConfig.Bridge.PciWrite: registers are plain read/write ones; write-one-to-clear registers are not modelled.
- Recovery of a context stranded by an earlier driver version: the model starts with no context open.
- Acknowledge levels per type, arbitration of the acknowledge between chips, and DMA: the code and documents do not settle the hardware's behaviour.
- The bring-up experiments in `nm32a.c` and the baud-rate table: hardware probing and a finite table.
- The deferred interrupt reports (`mv_unclaimed_report`, `cascade_runaway_report`): they only print and clear bits.
- `looks_like_ucode` and `find_candidates` in the extractor: heuristics on a firmware image.
- `resolve` in the TFTP server: file-system path handling.
- PCI window programming, `eth.c`, `serial.c`, `setup.c`, `time.c` and the remaining tools: constants, registration and I/O plumbing.
