# nixonpi: verified model of its device layers

The repository drives Nixie tubes and other hardware through a chain of layers: a Ruby
driver that bit-bangs a shift register, a client that writes an output port, a TCP server
that turns text commands into bus transfers, and a host library that multiplexes TWI
(I2C), SPI, 1-Wire, GPIO and UART traffic over one byte stream to an AxiCat
microcontroller. This project models the parts with the most state and proves what they
are for.

**TWI master.** `TwiHost` is the host as a value: three lists, counters, phases, credit.
`TwiWorld` joins it to a conforming device by the queue of unanswered commands and lists
every event. `TwiInvariant`, `TwiSteps`, `TwiLink`, `TwiAnswer`, `TwiEvents` prove the
invariant that replaces the transfer names missing on the wire; `TwiTrace` and
`TwiChronicle` the record of bytes sent and received; `TwiRuns` and `TwiProgress` draw the
theorems about whole runs, `TwiLineage` what stays with a transfer through a run (`Lineage` is
the argument it shares with the other interfaces).
`TwiMaster` and `TwiContext` are the same host as fields and loops, each method proved to
do what the function does, `TwiPump` ties the pump to the runs, and `TwiPool` has the
object pool as linked lists. START, STOP and address byte follow sections 3.1.4 and 3.1.10
of NXP UM10204.

**SPI and 1-Wire.** `SpiHost` to `SpiLineage` and `OwHost` to `OwLineage` do the same for the two
interfaces that send from and receive into one buffer; `Fifo` holds the order argument
they share. `SpiContext` keeps all user buffers in one memory array, so that a store into
one buffer has to be shown to miss the others; `OwContext` has the four command kinds.

**Byte stream.** `RxParser` is the response state machine, `RxPackets` the device's printer
and the proof that the machine inverts it, `TwiWire`, `SpiWire` and `OwWire` the step from
each byte of an answer to the event of the theorems about runs that it stands for. `Stream`
puts the three on one stream: packets follow one another in any order, users and pumps act
between any two bytes, and the host, which sees nothing else, goes along a run of each
interface. `Serial` is the transmit buffer, `Ldll` the pointer-level list under every queue,
`Uart` the ring buffers.

**Server and tubes.** `ServerLines` is the line assembler, `ServerText` and `ServerBuffers`
the number formats and the two static buffers, `Pwm2` the PCA9685 registers behind QW and
QR. `Tube` is the driver, the client that leaves out redundant writes, and the chip.

A conforming device answers each command once and in order, echoing what the packet
formats echo. After a NACK, a short packet or a skip it skips the rest of that TWI
transfer; after a skip it skips the rest of that SPI or 1-Wire transfer. Six findings are
stated as theorems with their exact condition, and each has a run or an input that shows
it happens. A TWI address of 128 or more makes the host detach from a sound device. A
skipped START leaves a transfer listed for good exactly if no data had been emitted. A
full SPI answer detaches exactly if an earlier packet of that transfer was skipped. A full
1-Wire answer is always taken, but hands its transfer back only if none of its packets was
skipped before. Once the link is lost, a 1-Wire transfer can be got out of the list exactly
if it is not active. A UART packet's count byte is right exactly up to 256 bytes, where the
device's buffer may be larger.

The code and a comment differ in one place: `axicat.h:610-612` gives the flags of a continued
enumeration as 1, but `axicat_al_ow.c:627-636` sends the other flags with it. The model does
what the code does.

Run `dafny verify dfyconfig.toml` (Dafny 4.11) to check the project.

## Model

| member | source | states |
|---|---|---|
| `TwiEvents.StepKeepsInv` | axiris/abiocard/abiocard_2015-02-28/axicat/axicat_al_twi.c:359-1304 | every event (user call, one emission of the pump, each part of an answer, bus error, loss of the link) keeps the invariant tying lists, counters, phases and credit to the device's queue |
| `TwiChronicle.StepKeepsChronicle` | axiris/abiocard/abiocard_2015-02-28/axicat/axicat_al_twi.c:768-1304 | every event keeps the record of what was sent and received in step with what each transfer and each log entry says |
| `TwiRuns.RunKeepsGood` | axiris/abiocard/abiocard_2015-02-28/axicat/axicat_al_twi.c:359-1304 | so does every sequence of events, from any state that satisfies both |
| `TwiRuns.ResponsesFindTheirTransfer` | axiris/abiocard/abiocard_2015-02-28/axicat/axicat_al_twi.c:1066-1076 | in every reachable attached state the head of the scheduled list owns the oldest unanswered command, and the payload being received |
| `TwiRuns.UnlistedIsAnswered` | axiris/abiocard/abiocard_2015-02-28/axicat/axicat_al_twi.c:984-1046 | a transfer that has left the list has no command unanswered |
| `TwiRuns.CreditIsConserved` | axiris/abiocard/abiocard_2015-02-28/axicat/axicat_al.c:1494-1525 | free bytes plus the bytes of unanswered commands equal the device's buffer length, between answers and inside one; free never exceeds it |
| `TwiRuns.ListIsSplit` | axiris/abiocard/abiocard_2015-02-28/axicat/axicat_al_twi.c:720-730 | the current-Tx position separates fully emitted transfers from untouched ones, and xfrd <= rsp <= cmd <= sc for each |
| `TwiRuns.PoolIsPartitioned` | axiris/abiocard/abiocard_2015-02-28/axicat/axicat_al_twi.c:303-390 | every transfer object is in exactly one of the cached, assigned and scheduled lists, once; its `loc` field names that list, and each counter is the length of its list |
| `TwiRuns.EachJobOnce` | axiris/abiocard/abiocard_2015-02-28/axicat/axicat_al_twi.c:359-390 | every scheduling is either listed or was handed back, exactly once |
| `TwiRuns.DetachDrains` | axiris/abiocard/abiocard_2015-02-28/axicat/axicat_al_twi.c:492-504 | losing the link empties the list, hands every transfer back once as cancelled, in order, and loses no transfer object |
| `TwiRuns.NoFalseDetach` | axiris/abiocard/abiocard_2015-02-28/axicat/axicat_al_twi.c:1057-1304 | with seven-bit addresses no run with a conforming device ends in a detach |
| `TwiRuns.EightBitAddressDetaches` | axiris/abiocard/abiocard_2015-02-28/axicat/axicat_al_twi.c:704-748 | scheduling does not check the address: from any idle state a probe of address 200 makes the host detach from a conforming device, which echoes 72 |
| `TwiAnswer.StartAnswer` | axiris/abiocard/abiocard_2015-02-28/axicat/axicat_al_twi.c:1071-1102 | a START's conforming answer is accepted exactly if the address fits seven bits, and then the invariant holds again |
| `TwiRuns.SkippedStartSticks` | axiris/abiocard/abiocard_2015-02-28/axicat/axicat_al_twi.c:1083-1102 | a START's answer leaves a transfer with data stuck exactly if it was skipped and no data packet had been emitted |
| `TwiWitness.SkippedStartOccurs` | axiris/abiocard/abiocard_2015-02-28/axicat/axicat_al_twi.c:1083-1102 | some run leads there: one object, a device buffer of 5 bytes, a write of one byte, and a skipped START |
| `TwiRuns.StuckForever` | axiris/abiocard/abiocard_2015-02-28/axicat/axicat_al_twi.c:990-1046 | no user call, emission or answer ever gets such a transfer out of the list again |
| `TwiRuns.StopsAreEarned` | axiris/abiocard/abiocard_2015-02-28/axicat/axicat_al_twi.c:944-963 | a STOP directly follows the last command of a transfer, which is fully emitted |
| `TwiRuns.DueStopsComeFirst` | axiris/abiocard/abiocard_2015-02-28/axicat/axicat_al_twi.c:786-800 | a STOP that is due precedes every other command, the next START included |
| `TwiRuns.StopRule` | axiris/abiocard/abiocard_2015-02-28/axicat/axicat_al_twi.c:941-960 | the pump ends a transfer exactly when it is fully emitted, and a STOP is then due exactly if TWI is enabled and the transfer forces one or is the last in the list |
| `TwiRuns.PacketsAreContiguous` | axiris/abiocard/abiocard_2015-02-28/axicat/axicat_al_twi.c:868-963 | a data packet directly follows an earlier command of its own transfer |
| `TwiRuns.CompletedWrite` | axiris/abiocard/abiocard_2015-02-28/axicat/axicat_al_twi.c:898-922 | a write that was handed back by its answers sent one START and packets of 1..32 bytes that join up to the first cmd bytes of the buffer the user scheduled, all of it unless an answer came up short; of a destroyed one the bytes sent before that, then 0xFF |
| `TwiRuns.CompletedRead` | axiris/abiocard/abiocard_2015-02-28/axicat/axicat_al_twi.c:1263-1304 | a read sent one START and packets with `last` on exactly the final one; its buffer is the bytes delivered, in order, followed by what was there when it was scheduled; of a destroyed one the buffer, which the user has back, is as it was at that moment |
| `TwiLineage.RequestIsKept` | axiris/abiocard/abiocard_2015-02-28/axicat/axicat_al_twi.c:704-748 | through any run, what is listed or handed back for a scheduling stands for the buffer, length, address, direction and STOP flag the user gave |
| `TwiLineage.NothingButFiller` | axiris/abiocard/abiocard_2015-02-28/axicat/axicat_al_twi.c:620-645 | after the user has destroyed an active write, whatever any further run still sends for it is 0xFF |
| `TwiLineage.BufferIsLeftAlone` | axiris/abiocard/abiocard_2015-02-28/axicat/axicat_al_twi.c:1279-1285 | after the user has destroyed an active transfer, no further run stores a byte into its buffer |
| `TwiProgress.EffectiveDecreases` | axiris/abiocard/abiocard_2015-02-28/axicat/axicat_al_twi.c:768-1304 | every emission, answer and payload byte uses up a measure of the state |
| `TwiProgress.ProgressIsBounded` | axiris/abiocard/abiocard_2015-02-28/axicat/axicat_al_twi.c:768-1304 | any interleaving of them is at most that measure long |
| `TwiProgress.RestMeansDone` | axiris/abiocard/abiocard_2015-02-28/axicat/axicat_al_twi.c:984-1046 | with a device buffer of at least 4 bytes, coming to rest means that every transfer was handed back or the head is a stuck skipped START |
| `TwiProgress.UnskippedMeansDone` | axiris/abiocard/abiocard_2015-02-28/axicat/axicat_al_twi.c:984-1046 | after any run without a skipped START, coming to rest means that every scheduled transfer was handed back |
| `TwiPump.PumpIsARun` | axiris/abiocard/abiocard_2015-02-28/axicat/axicat_al_twi.c:783-968 | in any state a run leads to, one go of the pump is a run of single emissions, and its commands are what they add to the queue and the trace |
| `TwiMaster.ListenEncode` | axiris/abiocard/abiocard_2015-02-28/axicat/axicat_al_twi.c:793-930 | a device reading the stream hears exactly the command that was encoded, whatever follows |
| `TwiMaster.PumpIsHeard` | axiris/abiocard/abiocard_2015-02-28/axicat/axicat_al_twi.c:783-968 | a device that reads the whole of what the pump sends in one go hears exactly the list of commands the pump meant |
| `TwiMaster.Pump` | axiris/abiocard/abiocard_2015-02-28/axicat/axicat_al_twi.c:783-968 | the pump runs until nothing more can be emitted; each pass uses credit |
| `TwiContext.TwiCtx.TxMaster` | axiris/abiocard/abiocard_2015-02-28/axicat/axicat_al_twi.c:768-968 | the pump with its loops does to the fields, and puts on the stream, what the longest sequence of single emissions does |
| `TwiContext.TwiCtx.TxData` | axiris/abiocard/abiocard_2015-02-28/axicat/axicat_al_twi.c:912-921 | the payload loop sends the next cnt bytes of the buffer, or 0xFF once it is gone, and counts them |
| `TwiContext.TwiCtx.SendStart` | axiris/abiocard/abiocard_2015-02-28/axicat/axicat_al_twi.c:829-865 | START with address and direction; a zero-byte write is through with it |
| `TwiContext.TwiCtx.SendPacket` | axiris/abiocard/abiocard_2015-02-28/axicat/axicat_al_twi.c:868-963 | one data packet within credit, and the move to the next transfer with the STOP decision |
| `TwiContext.TwiCtx.XfrMasterSchedule` | axiris/abiocard/abiocard_2015-02-28/axicat/axicat_al_twi.c:704-748 | refuses a zero-byte read and an object whose `loc` is not assigned, else moves it to the tail of the scheduled list, counters and `loc` with it |
| `TwiContext.TwiCtx.XfrMasterComplete` | axiris/abiocard/abiocard_2015-02-28/axicat/axicat_al_twi.c:359-390 | moves a transfer off the scheduled list, to the cache if it was destroyed, and the current-Tx position with it |
| `TwiContext.TwiCtx.XfrCancel` | axiris/abiocard/abiocard_2015-02-28/axicat/axicat_al_twi.c:537-556 | by `loc`: completes a scheduled transfer as cancelled exactly if nothing of it was emitted |
| `TwiContext.TwiCtx.XfrDestroy` | axiris/abiocard/abiocard_2015-02-28/axicat/axicat_al_twi.c:620-645 | cancels, then by `loc` returns an assigned object to the cache or marks it as detached |
| `TwiPool.Pool.Create` | axiris/abiocard/abiocard_2015-02-28/axicat/axicat_al_twi.c:657-693 | on three linked lists: the first cached object, by the counter, or a new one joins the assigned list, as the value model says |
| `TwiPool.Pool.Schedule` | axiris/abiocard/abiocard_2015-02-28/axicat/axicat_al_twi.c:704-728 | on the linked lists: an assigned object, by `loc`, moves to the tail of the scheduled list |
| `TwiPool.Pool.Unassign` | axiris/abiocard/abiocard_2015-02-28/axicat/axicat_al_twi.c:325-345 | on the linked lists: an assigned object moves to the tail of the cache |
| `TwiPool.Pool.Complete` | axiris/abiocard/abiocard_2015-02-28/axicat/axicat_al_twi.c:359-390 | on the linked lists: a scheduled object becomes assigned, and goes on to the cache if it was destroyed |
| `TwiPool.Pool.Destroy` | axiris/abiocard/abiocard_2015-02-28/axicat/axicat_al_twi.c:620-645 | on the linked lists: cancels, then unassigns exactly if `loc` says assigned; answers whether the caller has to mark the object |
| `TwiContext.TwiCtx.CheckComplete` | axiris/abiocard/abiocard_2015-02-28/axicat/axicat_al_twi.c:984-1046 | completes the head exactly when both phases agree and all that was emitted (if short) or asked for is answered, with the status its flags call for |
| `TwiContext.TwiCtx.HandleStart` | axiris/abiocard/abiocard_2015-02-28/axicat/axicat_al_twi.c:1057-1106 | a START answer: checks of phase, address and direction, then completion or the data phase |
| `TwiContext.TwiCtx.HandleMasterTx` | axiris/abiocard/abiocard_2015-02-28/axicat/axicat_al_twi.c:1125-1180 | a Tx answer: counters, flags, completion |
| `TwiContext.TwiCtx.HandleMasterRx` | axiris/abiocard/abiocard_2015-02-28/axicat/axicat_al_twi.c:1194-1249 | an Rx answer: counters and flags; completion only if no payload is to come |
| `TwiContext.TwiCtx.OnMasterRxByte` | axiris/abiocard/abiocard_2015-02-28/axicat/axicat_al_twi.c:1263-1304 | a payload byte is stored at xfrd, unless the buffer is gone, and completes the transfer when it is the last |
| `RxParser.RxMech.StepRx` | axiris/abiocard/abiocard_2015-02-28/axicat/axicat_al.c:1006-1977 | the byte loop makes the calls, and reaches the state, that the machine defines for the stream, and stops at the first fault, or right after the first call its handler refuses |
| `RxParser.ChunksDoNotMatter` | axiris/abiocard/abiocard_2015-02-28/axicat/axicat_al.c:1006-1035 | how the stream is cut into reads makes no difference |
| `RxPackets.TakesPacket` | axiris/abiocard/abiocard_2015-02-28/axicat/axicat_al.c:1035-1965 | on every response packet a device may print, the handlers are called with exactly its fields and payload, and the machine is at rest again |
| `RxPackets.ReceiverInvertsPrinter` | axiris/abiocard/abiocard_2015-02-28/axicat/axicat_al.c:1006-1977 | the same for any list of packets, however cut |
| `TwiWire.ReadsNext` | axiris/abiocard/abiocard_2015-02-28/axicat/axicat_al.c:1108-1645 | byte by byte the receiver takes a TWI answer in: on each it makes exactly the calls the byte stands for, and waits for what is left |
| `TwiWire.FollowsNext` | axiris/abiocard/abiocard_2015-02-28/axicat/axicat_al.c:1494-1645 | those calls do to the host what the event does that the byte stands for, and leave it attached and ready for what is left |
| `TwiWire.OwnKeepsReady` | axiris/abiocard/abiocard_2015-02-28/axicat/axicat_al.c:1987-2016 | between any two bytes of an answer a user call or a step of the pump leaves the host ready for what is left |
| `SpiWire.ReadsNext` | axiris/abiocard/abiocard_2015-02-28/axicat/axicat_al.c:1793-1862 | byte by byte the receiver takes an SPI answer in |
| `SpiWire.FollowsNext` | axiris/abiocard/abiocard_2015-02-28/axicat/axicat_al.c:1800-1862 | and each byte's calls do what its event does |
| `OwWire.ReadsNext` | axiris/abiocard/abiocard_2015-02-28/axicat/axicat_al.c:1868-1965 | byte by byte the receiver takes a 1-Wire answer of any kind in |
| `OwWire.FollowsNext` | axiris/abiocard/abiocard_2015-02-28/axicat/axicat_al.c:1868-1965 | and each byte's calls do what its event does |
| `Stream.EveryByteIsTaken` | axiris/abiocard/abiocard_2015-02-28/axicat/axicat_al.c:1006-1977 | on the one stream that carries the answers of all interfaces, the bus flags, the info block and packets for others, every byte is taken, and its calls leave the three hosts where three worlds of their own go |
| `Stream.StartInSync` | axiris/abiocard/abiocard_2015-02-28/axicat/axicat_al.c:2246-2299 | a session that has just been opened, with nothing on the wire, is in step |
| `Stream.StreamDrivesHosts` | axiris/abiocard/abiocard_2015-02-28/axicat/axicat_al.c:1981-2035 | with conforming devices and seven-bit TWI addresses: whatever the order of packets on the stream, and whatever users and pumps do between any two bytes, the PC's side, which sees only the bytes and its own calls, never gives up, and its hosts are those of three worlds each of which goes along a run of its own |
| `Serial.SerialTx.TxByte` | axiris/abiocard/abiocard_2015-02-28/axicat/axicat_al.c:722-735 | every byte handed over is on the stream; a full buffer is written out at once |
| `Serial.SerialTx.TxFlush` | axiris/abiocard/abiocard_2015-02-28/axicat/axicat_al.c:686-712 | the buffer is written whole or the device counts as detached |
| `Serial.SerialTx.TxAll` | axiris/abiocard/abiocard_2015-02-28/axicat/axicat_al.c:686-735 | a run of any length reaches the stream in order, up to the byte at which the link failed |
| `Fifo.AlignedSend` | axiris/abiocard/abiocard_2015-02-28/axicat/axicat_al_spi.c:605-676 | sending a packet of the first transfer not sent completely keeps list and queue aligned |
| `Fifo.AlignedWithout` | axiris/abiocard/abiocard_2015-02-28/axicat/axicat_al_spi.c:399-424 | so does cancelling an untouched transfer |
| `Fifo.AlignedTail` | axiris/abiocard/abiocard_2015-02-28/axicat/axicat_al_spi.c:329-358 | so does handing back a head whose packets are all answered |
| `SpiSteps.StepKeepsInv` | axiris/abiocard/abiocard_2015-02-28/axicat/axicat_al_spi.c:329-832 | every event keeps the SPI invariant and, short of losing the link, the attachment |
| `SpiChronicle.StepKeepsChronicle` | axiris/abiocard/abiocard_2015-02-28/axicat/axicat_al_spi.c:595-832 | every event keeps the user's bytes on the wire and the received bytes in the shared buffer |
| `SpiRuns.RunKeepsGood` | axiris/abiocard/abiocard_2015-02-28/axicat/axicat_al_spi.c:329-832 | so does every sequence of events |
| `SpiRuns.NeverDetaches` | axiris/abiocard/abiocard_2015-02-28/axicat/axicat_al_spi.c:693-832 | no run with a conforming device ends in a detach |
| `SpiRuns.AnswersFindTheirTransfer` | axiris/abiocard/abiocard_2015-02-28/axicat/axicat_al_spi.c:693-712 | the oldest unanswered packet is the head's, at its store index, with its slave select and last flag |
| `SpiRuns.CreditIsConserved` | axiris/abiocard/abiocard_2015-02-28/axicat/axicat_al.c:1811-1816 | free bytes plus the bytes of unanswered packets equal the device's buffer length |
| `SpiRuns.ListIsSplit` | axiris/abiocard/abiocard_2015-02-28/axicat/axicat_al_spi.c:553-676 | the current-Tx position separates transfers sent completely from untouched ones; store index <= fetch index <= length |
| `SpiRuns.FullDuplexInPlace` | axiris/abiocard/abiocard_2015-02-28/axicat/axicat_al_spi.c:656-665 | at every moment of every run the bytes sent are the user's own, in order, and the buffer is the bytes received followed by the user's |
| `SpiRuns.SuccessMeans` | axiris/abiocard/abiocard_2015-02-28/axicat/axicat_al_spi.c:745-764 | on success all of the user's bytes went out and the buffer is exactly what came back |
| `SpiRuns.SkippedMeans` | axiris/abiocard/abiocard_2015-02-28/axicat/axicat_al_spi.c:783-826 | a skipped transfer has what came back before the skip in its buffer and nothing else changed |
| `SpiRuns.FullAfterSkip` | axiris/abiocard/abiocard_2015-02-28/axicat/axicat_al_spi.c:740-748 | a full answer makes the host detach exactly if an earlier packet of the same transfer was skipped |
| `SpiWitness.SkippedFirstOccurs` | axiris/abiocard/abiocard_2015-02-28/axicat/axicat_al_spi.c:783-826 | some run leads to where such an answer is due: two packets under way, the first one skipped |
| `SpiLineage.RequestIsKept` | axiris/abiocard/abiocard_2015-02-28/axicat/axicat_al_spi.c:536-580 | through any run, what is listed or handed back for a scheduling stands for the buffer, length and slave select the user gave |
| `SpiLineage.NothingButFiller` | axiris/abiocard/abiocard_2015-02-28/axicat/axicat_al_spi.c:452-475 | after the user has destroyed an active transfer, whatever any further run still sends for it is 0xFF |
| `SpiLineage.BufferIsLeftAlone` | axiris/abiocard/abiocard_2015-02-28/axicat/axicat_al_spi.c:744-746 | and no further run stores a byte into its buffer |
| `SpiRuns.DetachDrains` | axiris/abiocard/abiocard_2015-02-28/axicat/axicat_al_spi.c:372-385 | losing the link empties the list and hands every transfer back once as cancelled, in order |
| `SpiRuns.ProgressIsBounded` | axiris/abiocard/abiocard_2015-02-28/axicat/axicat_al_spi.c:605-832 | the wire comes to rest after a bounded number of events |
| `SpiRuns.RestMeansDone` | axiris/abiocard/abiocard_2015-02-28/axicat/axicat_al_spi.c:605-832 | with a device buffer of at least 3 bytes, at rest every transfer was handed back |
| `SpiPump.PumpIsARun` | axiris/abiocard/abiocard_2015-02-28/axicat/axicat_al_spi.c:595-676 | in any state a run leads to, one go of the pump is a run of single packets |
| `SpiContext.PumpIsHeard` | axiris/abiocard/abiocard_2015-02-28/axicat/axicat_al_spi.c:605-676 | a device that reads the whole of what the pump sends in one go hears exactly the list of packets the pump meant |
| `SpiContext.SpiCtx.SpiTx` | axiris/abiocard/abiocard_2015-02-28/axicat/axicat_al_spi.c:595-676 | the pump with its loops does what the longest sequence of single packets does, reading the user's memory in place |
| `SpiContext.SpiCtx.TxData` | axiris/abiocard/abiocard_2015-02-28/axicat/axicat_al_spi.c:656-665 | the payload loop sends from the fetch index on, 0xFF once the buffer is gone |
| `SpiContext.SpiCtx.SpiRxByte` | axiris/abiocard/abiocard_2015-02-28/axicat/axicat_al_spi.c:727-764 | stores a byte at the store index in memory and nowhere else, nowhere at all once the user has destroyed the transfer, and completes after the last byte of the last packet |
| `SpiContext.SpiCtx.SpiRxSkip` | axiris/abiocard/abiocard_2015-02-28/axicat/axicat_al_spi.c:783-826 | a skipped answer: flag, xfrd frozen, completion when nothing is on its way |
| `SpiContext.SpiCtx.Schedule` | axiris/abiocard/abiocard_2015-02-28/axicat/axicat_al_spi.c:536-580 | refuses a slave select above 3 and an empty buffer, else links the transfer at the tail; the host goes on with the buffer's contents if it overlaps no other |
| `SpiContext.SpiCtx.XfrComplete` | axiris/abiocard/abiocard_2015-02-28/axicat/axicat_al_spi.c:329-358 | unlinks a transfer and moves the current-Tx position with it |
| `SpiContext.SpiCtx.XfrDestroy` | axiris/abiocard/abiocard_2015-02-28/axicat/axicat_al_spi.c:452-475 | cancels an untouched transfer, marks an active one as detached |
| `SpiContext.SpiCtx.CompleteAllXfrs` | axiris/abiocard/abiocard_2015-02-28/axicat/axicat_al_spi.c:372-385 | drains the scheduled list |
| `OwSteps.StepKeepsInv` | axiris/abiocard/abiocard_2015-02-28/axicat/axicat_al_ow.c:185-1020 | every event keeps the 1-Wire invariant: alignment to bytes, packet counters, credit, order |
| `OwChronicle.StepKeepsChronicle` | axiris/abiocard/abiocard_2015-02-28/axicat/axicat_al_ow.c:495-935 | every event keeps the user's bits on the wire and the received bits in the shared buffer |
| `OwRuns.RunKeepsGood` | axiris/abiocard/abiocard_2015-02-28/axicat/axicat_al_ow.c:185-1020 | so does every sequence of events |
| `OwRuns.NeverDetaches` | axiris/abiocard/abiocard_2015-02-28/axicat/axicat_al_ow.c:702-1020 | no run with a conforming device ends in a detach |
| `OwRuns.AnswersFindTheirTransfer` | axiris/abiocard/abiocard_2015-02-28/axicat/axicat_al_ow.c:742-766 | the oldest unanswered command is the head's and of its kind; packets other than the last are whole bytes |
| `OwRuns.CreditIsConserved` | axiris/abiocard/abiocard_2015-02-28/axicat/axicat_al.c:1884-1889 | free bytes plus the bytes of unanswered commands (1, 3 and the data, 11, 9) equal the device's buffer length, though only one of the four answers checks it |
| `OwRuns.PacketsAreCounted` | axiris/abiocard/abiocard_2015-02-28/axicat/axicat_al_ow.c:575-576 | active_packets is the number of the transfer's packets on their way, so it never wraps |
| `OwRuns.ListIsSplit` | axiris/abiocard/abiocard_2015-02-28/axicat/axicat_al_ow.c:407-484 | the current-Tx position separates commands sent completely from untouched ones |
| `OwRuns.TouchInPlace` | axiris/abiocard/abiocard_2015-02-28/axicat/axicat_al_ow.c:583-599 | the bytes sent are the user's own and the buffer is the bytes received followed by the user's, although both indices count bits |
| `OwRuns.SuccessMeans` | axiris/abiocard/abiocard_2015-02-28/axicat/axicat_al_ow.c:822-872 | a successful touch transfer sent all bits and its buffer is exactly what came back |
| `OwRuns.SkippedMeans` | axiris/abiocard/abiocard_2015-02-28/axicat/axicat_al_ow.c:892-935 | a skipped touch transfer is handed back when none of its packets is on its way, with what came before the skip in place |
| `OwLineage.RequestIsKept` | axiris/abiocard/abiocard_2015-02-28/axicat/axicat_al_ow.c:407-484 | through any run, what is listed or handed back for a scheduling stands for the kind, buffer, length, pull-up and arguments the user gave |
| `OwLineage.NothingButFiller` | axiris/abiocard/abiocard_2015-02-28/axicat/axicat_al_ow.c:325-348 | after the user has destroyed an active touch transfer, whatever any further run still sends for it is 0xFF |
| `OwLineage.BufferIsLeftAlone` | axiris/abiocard/abiocard_2015-02-28/axicat/axicat_al_ow.c:792-794 | and no further run stores a byte into its buffer |
| `OwRuns.LostTransfersStay` | axiris/abiocard/abiocard_2015-02-28/axicat/axicat_al.c:600-613 | losing the link does not hand 1-Wire transfers back: as long as the context lives, some run gets a transfer out of the list exactly if it is not active |
| `OwWitness.LostActiveOccurs` | axiris/abiocard/abiocard_2015-02-28/axicat/axicat_al.c:600-613 | some run loses the link with an active transfer listed |
| `OwRuns.FullAfterSkip` | axiris/abiocard/abiocard_2015-02-28/axicat/axicat_al_ow.c:777-872 | a full answer to the oldest packet is always taken, and hands the transfer back exactly if it is the transfer's last packet and none was skipped before |
| `OwRuns.LeftBehind` | axiris/abiocard/abiocard_2015-02-28/axicat/axicat_al_ow.c:777-935 | a full answer after a skipped one leaves the transfer listed even when it answers the last packet on its way, where a skipped answer hands it back exactly then |
| `OwWitness.SkippedFirstOccurs` | axiris/abiocard/abiocard_2015-02-28/axicat/axicat_al_ow.c:892-935 | some run leads to where a full answer after a skipped one is due |
| `OwRuns.ProgressIsBounded` | axiris/abiocard/abiocard_2015-02-28/axicat/axicat_al_ow.c:495-1020 | the wire comes to rest after a bounded number of events |
| `OwRuns.RestMeansDone` | axiris/abiocard/abiocard_2015-02-28/axicat/axicat_al_ow.c:495-1020 | with a device buffer of at least 11 bytes, at rest every transfer was handed back |
| `OwPump.PumpIsARun` | axiris/abiocard/abiocard_2015-02-28/axicat/axicat_al_ow.c:495-685 | in any state a run leads to, one go of the pump is a run of single commands |
| `OwContext.PumpIsHeard` | axiris/abiocard/abiocard_2015-02-28/axicat/axicat_al_ow.c:505-685 | a device that reads the whole of what the pump sends in one go hears exactly the list of commands the pump meant, each kind with its own length |
| `OwContext.SearchIsRead` | axiris/abiocard/abiocard_2015-02-28/axicat/axicat_al_ow.c:627-646 | flags, family code and ROM code of an enumeration are read back as what the user asked for |
| `OwContext.OwCtx.TxSearch` | axiris/abiocard/abiocard_2015-02-28/axicat/axicat_al_ow.c:627-646 | composes the flags and sends what they announce |
| `OwContext.OwCtx.OwTx` | axiris/abiocard/abiocard_2015-02-28/axicat/axicat_al_ow.c:495-685 | the pump over four kinds of command does what the longest sequence of single commands does |
| `OwContext.OwCtx.TxBits` | axiris/abiocard/abiocard_2015-02-28/axicat/axicat_al_ow.c:583-599 | the payload loop sends the bytes with the next bits, the last one perhaps partly filled |
| `OwContext.OwCtx.NextBits` | axiris/abiocard/abiocard_2015-02-28/axicat/axicat_al_ow.c:546-565 | at most 128 bits, and only whole bytes unless the transfer ends |
| `OwContext.OwCtx.OnTouchByte` | axiris/abiocard/abiocard_2015-02-28/axicat/axicat_al_ow.c:777-807 | stores a byte at the bit index divided by eight; the last one ends the packet |
| `OwContext.OwCtx.EndPacket` | axiris/abiocard/abiocard_2015-02-28/axicat/axicat_al_ow.c:822-872 | the end of a packet counts it as answered; the transfer completes when all bits are stored, or after a short packet when no other is on its way, and the host detaches if it then has no room for more |
| `OwContext.OwCtx.OnTouchSkip` | axiris/abiocard/abiocard_2015-02-28/axicat/axicat_al_ow.c:892-935 | a skipped touch packet: flag, xfrd frozen, completion when none is on its way |
| `OwContext.OwCtx.OnTouchCount` | axiris/abiocard/abiocard_2015-02-28/axicat/axicat_al_ow.c:742-759 | the head of a touch answer has to fit the head transfer; its credit comes back |
| `OwContext.OwCtx.OnEnum` | axiris/abiocard/abiocard_2015-02-28/axicat/axicat_al.c:1226-1249 | an enumeration answer returns its credit first and completes at once only if nothing was found |
| `OwContext.OwCtx.Finish` | axiris/abiocard/abiocard_2015-02-28/axicat/axicat_al_ow.c:950-983 | completes the head exactly if it is of the kind the answer is for, and tells its user what was found, with the ROM code |
| `OwContext.OwCtx.Schedule` | axiris/abiocard/abiocard_2015-02-28/axicat/axicat_al_ow.c:407-484 | refuses a touch of no bits, and a probe the firmware does not know |
| `Ldll.Base.LinkHead` | axiris/abiocard/abiocard_2015-02-28/common/ldllist.c:33-39 | prepends the item to the list the pointers stand for |
| `Ldll.Base.LinkTail` | axiris/abiocard/abiocard_2015-02-28/common/ldllist.c:42-48 | appends the item |
| `Ldll.Base.UnlinkHead` | axiris/abiocard/abiocard_2015-02-28/common/ldllist.c:51-68 | takes the first item, or null from an empty list |
| `Ldll.Base.UnlinkTail` | axiris/abiocard/abiocard_2015-02-28/common/ldllist.c:71-88 | takes the last item, or null from an empty list |
| `Ldll.Base.UnlinkItem` | axiris/abiocard/abiocard_2015-02-28/common/ldllist.c:91-100 | takes an item out wherever it is; the rest keeps its order |
| `Ldll.Move` | axiris/abiocard/abiocard_2015-02-28/axicat/axicat_al_twi.c:720-730 | moving an object between two lists loses and doubles none |
| `Ldll.MoveHead` | axiris/abiocard/abiocard_2015-02-28/axicat/axicat_al_twi.c:668-690 | the same for the first object of the cache |
| `Uart.RingHoldsMostRecent` | axiris/abiocard/abiocard_2015-02-28/axicat/axicat_al_uart.c:614-636 | over any mix of arriving bytes and reads the ring holds exactly the most recent unread bytes that fit, in order |
| `Uart.UartCtx.RxByte` | axiris/abiocard/abiocard_2015-02-28/axicat/axicat_al_uart.c:614-636 | every byte is stored, in place of the oldest if the ring is full; the ring goes on holding exactly the most recent unread bytes that fit |
| `Uart.UartCtx.Read` | axiris/abiocard/abiocard_2015-02-28/axicat/axicat_al_uart.c:509-548 | returns and removes the oldest bytes, as many as asked for and there are; the ring goes on holding exactly the most recent unread bytes that fit |
| `Uart.UartCtx.Write` | axiris/abiocard/abiocard_2015-02-28/axicat/axicat_al_uart.c:447-490 | appends as much as fits, whole words only for a wide UART |
| `Uart.UartCtx.Tx` | axiris/abiocard/abiocard_2015-02-28/axicat/axicat_al_uart.c:559-600 | sends and removes the oldest bytes, as many as the device has room for |
| `Uart.CountFits` | axiris/abiocard/abiocard_2015-02-28/axicat/axicat_al_uart.c:571-579 | the count byte of a packet says how many bytes follow exactly if they are at most 256 |
| `Uart.OverlongPacket` | axiris/abiocard/abiocard_2015-02-28/axicat/axicat_al_uart.c:559-600 | it happens: a device with 300 bytes free is sent 300 bytes under a count byte that says 44 |
| `Uart.UartCtx.OnTxFree` | axiris/abiocard/abiocard_2015-02-28/axicat/axicat_al.c:1382-1394 | what the device says is free is taken unless it is more than its buffer |
| `Uart.RingOverwrite` | axiris/abiocard/abiocard_2015-02-28/axicat/axicat_al_uart.c:623-635 | overwriting the oldest byte and moving both indices is dropping it and appending |
| `ServerLines.DispatchedAreTheCommands` | axiris/abiocard/abiocard_2015-02-28/abiocard/abiocardserver.c:1260-1303 | for any stream, the commands dispatched are the acceptable lines in order, up to the first QU |
| `ServerLines.AssembleSplit` | axiris/abiocard/abiocard_2015-02-28/abiocard/abiocardserver.c:1242-1308 | what is dispatched does not depend on how the stream is cut |
| `ServerLines.Client.MainClient` | axiris/abiocard/abiocard_2015-02-28/abiocard/abiocardserver.c:1232-1308 | the receive loop dispatches exactly the commands of all it hears, whatever the chunks: it stops hearing when the device is detached before a receive, the client closes, or the responses cannot be sent |
| `ServerLines.Client.Receive` | axiris/abiocard/abiocard_2015-02-28/abiocard/abiocardserver.c:1258-1303 | one chunk: characters into the command buffer, lines dispatched at their end |
| `ServerLines.Client.EatChar` | axiris/abiocard/abiocard_2015-02-28/abiocard/abiocardserver.c:1282-1302 | a printable character is kept while the line fits; anything else spoils the line |
| `ServerText.PrintedIsRead` | axiris/abiocard/abiocard_2015-02-28/abiocard/abiocardserver.c:517-581 | digits printed are read back as the number modulo base to the number of digits, for both bases |
| `ServerText.FetchedIsNumber` | axiris/abiocard/abiocard_2015-02-28/abiocard/abiocardserver.c:517-581 | and only the digits of a number are read as that number, when it fits a word |
| `ServerBuffers.RspBuffer.StoreHexN` | axiris/abiocard/abiocard_2015-02-28/abiocard/abiocardserver.c:694-726 | shifting nibbles out of a word stores its d lowest digits, highest first; digits beyond the eighth are not stored |
| `ServerBuffers.RspBuffer.StoreDecN` | axiris/abiocard/abiocard_2015-02-28/abiocard/abiocardserver.c:643-690 | dividing by falling powers of ten stores the d lowest digits for d in 1..10, and refuses others |
| `ServerBuffers.RspBuffer.StoreRspCh` | axiris/abiocard/abiocard_2015-02-28/abiocard/abiocardserver.c:614-624 | a character is added to what was stored, or nothing changes and the channel is down with a full buffer |
| `ServerBuffers.RspBuffer.FlushRsp` | axiris/abiocard/abiocard_2015-02-28/abiocard/abiocardserver.c:585-610 | everything stored is sent, or nothing changes |
| `ServerBuffers.CmdBuffer.FetchN` | axiris/abiocard/abiocard_2015-02-28/abiocard/abiocardserver.c:517-581 | the digit loop reads what the number format defines, in machine words, and fails exactly when that does |
| `ServerBuffers.CmdBuffer.FetchCmdCh` | axiris/abiocard/abiocard_2015-02-28/abiocard/abiocardserver.c:476-491 | the next character, or 0 at the end |
| `Pwm2.WriteThenRead` | axiris/abiocard/abiocard_2015-02-28/abiocard/abiocard.c:784-895 | reading back a range that was written gives the channels written; every other channel reads as before |
| `Pwm2.OrderText` | axiris/abiocard/abiocard_2015-02-28/abiocard/abiocardserver.c:1016-1064 | a valid QW text holds, for each channel it covers, exactly the eight characters QR would print for it |
| `Pwm2.QrGivesWhatQwGot` | axiris/abiocard/abiocard_2015-02-28/abiocard/abiocardserver.c:965-1064 | after any QW texts a QR over any valid range prints for each channel the characters it was last given, or what it printed before if none covered it |
| `Pwm2.Pwm2Chip.WriteRange` | axiris/abiocard/abiocard_2015-02-28/abiocard/abiocard.c:784-838 | the byte loop writes the four registers of each channel, exactly if the range is valid |
| `Pwm2.Pwm2Chip.ReadRange` | axiris/abiocard/abiocard_2015-02-28/abiocard/abiocard.c:842-895 | the loop reads each channel's two 13-bit settings |
| `Pwm2.ParseCmdQw` | axiris/abiocard/abiocard_2015-02-28/abiocard/abiocardserver.c:1016-1064 | parses a whole QW text, refusing values from 0x2000 on, bad ranges and trailing characters before anything is written |
| `Pwm2.ParseCmdQr` | axiris/abiocard/abiocard_2015-02-28/abiocard/abiocardserver.c:965-1012 | answers a QR text with start, count and the settings of the range, or with as much of that as fits if the channel is down |
| `Tube.SuppressionIsInvisible` | lib/nixonpi/client/abio_card_client.rb:92-102 | the chip ends up where it would without the check for a change |
| `Tube.FastSendsTheEdges` | lib/nixonpi/client/abio_card_client.rb:92-102 | the client sends exactly the edges of what an unchecked client sends |
| `Tube.TubesShow` | lib/nixonpi/drivers/basic/tube_driver.rb:22-31 | a string shifts in four bits for each character, last character and top bit first, blank as 10; the latch rises once, after them, whatever the lines were before |
| `Tube.DriveDigit` | lib/nixonpi/drivers/basic/tube_driver.rb:118-132 | a digit gives four clock rises with its bits, and no latch rise |
| `Tube.AbioCardClient.Write` | lib/nixonpi/client/abio_card_client.rb:92-102 | a register value is sent if it differs from the last one, or is the first; other values than 0 and 1 count as 0 |
| `Tube.TubeDriver.SerializeDigit` | lib/nixonpi/drivers/basic/tube_driver.rb:118-132 | the bit loop makes the writes of one digit |
| `Tube.TubeDriver.WriteStringWithBlanks` | lib/nixonpi/drivers/basic/tube_driver.rb:22-31 | the loop over the reversed string makes the writes of the whole string |
| `Tube.TubeDriver.constructor` | lib/nixonpi/drivers/basic/tube_driver.rb:13-20 | starts with all three lines low and the client's register known |

## Left out

- TWI slave transfers: the two slave pumps (`axicat_al_twi.c:1386-1921`) work like the master's without START, STOP and STOP decisions.
- GPIO transfers: the same list handling with a single two-byte command and no credit.
- Transfers as objects: in `TwiContext`, `SpiContext` and `OwContext` a transfer is a record in a list and the current-Tx pointer a position, so aliasing between transfer pointers is not captured; `Ldll` has the pointers on their own. TWI and 1-Wire buffers belong to the record, SPI buffers are regions of one memory.
- SPI and 1-Wire object pools: cached and assigned lists are modelled for TWI only, where the code is the same.
- SpiContext.SpiCtx.XfrComplete: leaves out the moves to the assigned list and the cache, which `TwiPool` has for TWI.
- SpiContext.SpiCtx.XfrDestroy: leaves out the return of an idle object to the cache, likewise.
- SpiContext.SpiCtx.Schedule: leaves out the refusal of objects that are not assigned; of buffers that overlap it says that they are accepted, not what is sent from them.
- OwContext.OwCtx.Schedule: leaves out the refusal of objects that are not assigned.
- TwiContext.TwiCtx.XfrCancel: leaves out the slave branches, which do the same for the two slave lists.
- TwiRuns.DetachDrains: leaves out the two slave lists, which are drained in the same way.
- TwiContext.TwiCtx.TxMaster: a write that fails in the middle of a command, on which the host detaches, is not modelled; the link is lost between two commands. `Serial` has the stream up to the failing byte.
- SpiContext.SpiCtx.SpiTx: a write that fails in the middle of a packet, likewise.
- OwContext.OwCtx.OwTx: a write that fails in the middle of a command, likewise; the arguments of an enumeration or a probe are taken when it is scheduled, the code reads them when it sends.
- Destroying the whole context, which completes and frees every transfer.
- The state after an inconsistent answer: the host detaches, which is all that is modelled.
- 1-Wire short packets in runs: the code keeps sending after one, and makes no usable promise; `OwContext` has what the end of such a packet does.
- SPI answers that return fewer bytes than the packet had: not part of the device model.
- UM10204 bus timing and arbitration: the device is known by its answers.
- Integer widths: counters of the host are unbounded; the invariants bound them by buffer and transfer lengths, far below 32 bits. Number parsing and printing, and the UART count byte, have their widths.
- UART flow control: the room for transmit packets is whatever the device last said; whether it says so rightly is not part of the model.
- Unknown transfer kinds, directions other than read and write, and flags other than 0 and 1.
- The strings and colours of the info block beyond the length fields the receiver uses.
- Server commands other than QW, QR and QU; sockets; a failed bus write, after which the registers are not known.
- ServerLines.Client.MainClient: says nothing of the responses of the commands, which `Pwm2` has for QW and QR.
- Real-time clock, ADC, BSC and i2c-dev back ends, the older copies under `c-driver`, and the Ruby scheduling, messaging, animation and web code.
- The other writing methods of the tube driver, which differ from `write_string_with_blanks` in how they choose the digits.
