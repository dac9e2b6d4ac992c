# Verified model of the io-homecontrol gateway

This project models the logic of the io-homecontrol gateway firmware with the hardware removed, and
proves what its parts promise. Six parts are modelled.

* **Transmit engine and channel scan** (`RadioTypes`, `TxProtocol`, `TxTheorems`, `TransmissionEnds`,
  `TxCalls`, `RadioCalls`, `CarrierTheorems`, `Sender`, `ScanProtocol`, `Receiver`, `Cyclic`). Producers
  queue batches, a mutex section claims one, a ticker repeats and advances its packets, a callback task
  frees them. `TxProtocol` has the engine as steps of concurrent tasks; `TxTheorems` and
  `TransmissionEnds` reason over all their interleavings. `TxCalls` composes the steps into whole calls,
  `RadioCalls` adds what they do to the receiver and its scan, and the classes `Sender.TxSender` and
  `Receiver.ScanReceiver` are proved against them.
* **Settings file and rolling codes** (`CrashSafeStore`, `RollingCode`). The disk is a map of three
  files; a save is the list of disk states it passes through, so that power can fail at each.
  `RollingCode` adds the counters in RAM, in NVS and in that file.
* **Pairing** (`OneWay`, `PairingProtocol`, `PairingTheorems`, `PairingCode`). The two-way chain
  0x29, 0x2D, 0x32, 0x3D and the one-way learn chain 0x2E, 0x39, 0x30, including the remote that sends
  the latter. AES is an arbitrary function from a key and a block to a block.
* **Crypto arithmetic** (`GaloisField`, `SubstitutionBox`, `Aes`, `AesCode`, `AesExamples`, `Crc`,
  `InitialValue`). AES-128 in place against FIPS 197 and its examples, the reflected CRC-16, the checksum
  and the initial values.
* **ESPHome server** (`Wire`, `Decoding`, `ProtoCode`, `Framing`). The Protocol Buffers writer and
  reader, the field loops of three command handlers, and the frame layer.
* **Position estimate and radio frames** (`Position`, `PositionCode`, `RadioFrame`, `FrameTheorems`,
  `FifoCode`). The integrator behind a blind's position, and how frames are built and collected.

Conventions. A module whose name ends in `Code`, and `Sender`, `Receiver`, `Flash` and `Remotes`, hold
the imperative code; the others hold what it is proved against and the theorems about that. Clocks,
random bytes, interrupt flags, answers of queues and of the flash, and the results of reads are
parameters or inputs of the step that uses them.

Assumptions taken from the code:

* a batch holds at most 255 packets, because the packet counter has eight bits
  (`TxTheorems.AirFollowsQueueIffFits` and `HandedOverLeftAloneIffFits` show that this is exact);
* no key-transfer batch ends before `start()` ran (`TxTheorems.LostIffDeaf` shows that this is exact,
  and `StartedIsServed` that calling `start()` before the first send is enough);
* a file write stores everything or reports that it stored nothing, a torn file is not valid JSON,
  a rename is atomic, and a removal succeeds;
* rolling codes are compared as numbers on loading but on a circle on receiving, and no lock guards
  them: a counter must not wrap by sending, neither synchronisation nor import may set it to a number
  sent or about to be sent, and a command must not begin while one for the same remote is in progress
  (`RollingCode.FreshLostIff` shows that this is exact, `WrapRepeatsAfterReboot`, `ReimportRepeats` and
  `OverlapRepeats` give runs);
* stamping a frame, changing a counter in RAM and writing it to NVS are one step each, a remote is not
  removed while a task works on its counter, and loading happens before anything else;
* buffers are shorter than 2^32 bytes, and no length that is skipped in them wraps the 64-bit addition
  back to where the turn began (`Decoding.DecodeEnds` shows that this is exact);
* positions are real numbers, and the clock stands still within one call, except for the wait of a full
  callback queue in `TxTheorems.BatchTimeBound`.

Where the code and the obvious claim about it differ, the code is followed: a motion to an end of the
scale is over half a percent early, and no other (`Position.LastsFullTimeIff`), the plain end of a
batch does not tune the receiver back (`CarrierTheorems.OnChannelAfterBatch`), a TXDONE noted before the
first frame of a batch counts for that frame (`TransmissionEnds.StaleNoteCounts`), and a save whose replacing
and restoring renames both fail leaves only the backup (`CrashSafeStore.FinishedSave`).

`dafny verify dfyconfig.toml` checks the whole project.

## Model

| member | source | states |
|---|---|---|
| `TxTheorems.AirFollowsQueue` | src/iohcRadio.cpp:578-757 | For every interleaving of sends of at most 255 packets, start(), interrupts and ticks, the frames on air are a prefix of the submitted batches in queue order, each packet repeat + 1 times, the long preamble on exactly the first frame of each batch; and all of it once queue and batch are drained |
| `TxTheorems.AirFollowsQueueIffFits` | src/iohcRadio.cpp:578-757 | Whatever batches the callers submit, they go on air in order in every run exactly if none has more than 255 packets; otherwise a run from power-up leads to the 8-bit counter going round and the batch being repeated for ever |
| `TxTheorems.HandedOverLeftAloneIffFits` | src/iohcRadio.cpp:662-796 | Under exactly the same condition no run touches one of a set of distinct packets after handing it over; otherwise a run from power-up leads to a tick that does |
| `TxTheorems.BatchEndsIffItFits` | src/iohcRadio.cpp:696-729 | From the first frame of a batch some run leads to its end exactly if the batch has at most 255 packets |
| `TxTheorems.EachPacketInOnePlace` | src/iohcRadio.cpp:578-796 | In every state reached with batches of at most 255 packets each submitted packet is in exactly one of send queue, unsent part of the active batch, callback queue, callback task, or freed; so none is freed twice |
| `TxTheorems.NeverTouchedAfterHandOver` | src/iohcRadio.cpp:662-796 | In runs with batches of at most 255 packets no step dereferences a packet that was handed to the callback queue or freed, and the callback task frees only what the engine no longer owns |
| `TxTheorems.CounterInBounds` | src/iohcRadio.cpp:589-748 | In every run, with batches of any size, the packet counter names a packet of the active batch whenever a first transmission, a tick or an advance can come |
| `TxTheorems.NoLostWakeUp` | src/iohcRadio.cpp:589-727 | In every run in which no batch leaves the radio deaf, a non-empty send queue has an active batch, an end-of-batch section or a pending start to serve it |
| `TxTheorems.LostIffDeaf` | src/iohcRadio.cpp:707-727 | A step makes it possible that a queued batch is nobody's job exactly if it leaves the radio deaf: the end of a key-transfer batch, before start(), with the radio still in TX and no batch begun since |
| `TxTheorems.StartedIsServed` | src/iohcRadio.cpp:297-727 | That never happens in a run in which start() comes before the first send |
| `TxTheorems.UnstartedGoesDeaf` | src/iohcRadio.cpp:339-342 | Without start() a run from power-up leads there: startTwoWScan returns early and leaves TX |
| `TxTheorems.DeafIsSilent` | src/iohcRadio.cpp:589-601 | A deaf radio puts nothing on air, whatever is submitted, until start() or an interrupt moves its state |
| `TxTheorems.EverythingCanBeSent` | src/iohcRadio.cpp:578-757 | From every state in which a run without oversized batches has brought a started radio without its going deaf, some run without further submissions empties queue and engine, with everything submitted on air in order |
| `TxTheorems.BatchTimeBound` | src/iohcRadio.cpp:673-772 | Even if no TXDONE ever arrives and a full callback queue holds up every hand-over, no step of a batch of at most 255 packets, the one that ends it included, comes later after its first frame than the sum of repeat + 1 times (2 s + ticker period) plus 25 ms per packet, whatever the other tasks do |
| `TransmissionEnds.TickGoesOnIff` | src/iohcRadio.cpp:666-735 | A tick changes nothing exactly as long as no TXDONE was noted, PacketSent is clear and at most 2 s have passed since the frame was written; otherwise it writes the packet once more with one repetition less, or hands it over |
| `TransmissionEnds.GoesOnOnlyWhenOut` | src/iohcRadio.cpp:666-735 | In every run a tick goes on only if a TXDONE was noted for the frame on air, or between claiming its batch and writing its first frame, or the tick finds PacketSent, or more than 2 s have passed |
| `TransmissionEnds.GoesOnOnlyWhenFrameOut` | src/iohcRadio.cpp:666-735 | If TXDONE is only signalled for frames on air, then for the frame on air |
| `TransmissionEnds.StaleNoteCounts` | src/iohcRadio.cpp:597-648 | If not, a run from power-up in which a TXDONE noted before the first frame lets the first tick write it again at once |
| `TransmissionEnds.FrameFollowsTick` | src/iohcRadio.cpp:662-757 | In every run each frame but the first of a batch follows a tick that went on, with nothing written in between |
| `TransmissionEnds.NextTickGoesOn` | src/iohcRadio.cpp:666-735 | A noted TXDONE stays noted through everything other tasks do, and the next tick goes on |
| `TxTheorems.CallbacksInOrder` | src/iohcRadio.cpp:199-220 | Packets are dispatched and deleted in the order in which they were handed over |
| `TxTheorems.RunKeepsInv` | src/iohcRadio.cpp:578-796 | The invariant behind these results holds after every run of steps without an oversized submission |
| `TxProtocol.StepInv` | src/iohcRadio.cpp:578-796 | Every single step (submit, each part of startQueuedSend, tick, hand-over, advance, end of batch, callback) that does not submit an oversized batch keeps the invariants of control, ownership and trace |
| `TxProtocol.StepTrace` | src/iohcRadio.cpp:578-757 | As long as no batch has more than 255 packets, no step breaks the promise that air plus what is still to come equals the submitted batches as they should sound |
| `TxProtocol.StepPlaces` | src/iohcRadio.cpp:578-796 | Under the same condition no step but a submission changes how often a packet exists across all places |
| `TxProtocol.StepAwake` | src/iohcRadio.cpp:589-727 | A step leaves a waiting batch without somebody to begin it, or the radio in TX without somebody to move it, exactly if it is the one that goes deaf |
| `TxCalls.StartedIsRun` | src/iohcRadio.cpp:589-648 | startQueuedSend as one call is a run of its mutex section, its preparation and its first transmission |
| `TxCalls.TickedIsRun` | src/iohcRadio.cpp:662-757 | onTxTicker as one call is a tick, then hand-over, advance and perhaps the end-of-batch section with the next start |
| `TxCalls.SendKeepsInv` | src/iohcRadio.cpp:655-658 | A whole send call of a batch of at most 255 packets keeps the invariant of all interleavings |
| `TxCalls.TickKeepsInv` | src/iohcRadio.cpp:662-757 | A whole ticker call keeps it too |
| `Sender.TxSender.AnyKeyTransfer` | src/iohcRadio.cpp:610-616 | Finds whether any packet of the batch asks for listening afterwards |
| `Sender.TxSender.ClaimFront` | src/iohcRadio.cpp:590-601 | The mutex section takes the front batch exactly when nothing is active, the radio is not in TX and the queue is not empty |
| `Sender.TxSender.StartQueuedSend` | src/iohcRadio.cpp:589-648 | Equals the specified start for every state of queue, radio and scan: what goes on air, what becomes of the receiver, and what is remembered of its scan |
| `Sender.TxSender.Send` | src/iohcRadio.cpp:578-658 | Queueing, where an empty batch is dropped, and then starting, on the whole radio |
| `Sender.TxSender.FinishBatch` | src/iohcRadio.cpp:703-724 | The end-of-batch section frees the engine, forgets the remembered scan, and leaves the receiver resumed, listening, stopped or plainly in RX, also on a radio that was not started |
| `Sender.TxSender.NextPacket` | src/iohcRadio.cpp:696-748 | After a hand-over, on engine, receiver and remembered scan: the next packet of the batch, or its end and the next batch |
| `Sender.TxSender.OnTxTicker` | src/iohcRadio.cpp:662-757 | The whole ticker call equals the specified one on engine, receiver and remembered scan, for every flag, time and answer of the callback queue; without TXDONE, PacketSent and timeout it changes nothing |
| `RadioCalls.CallsAreReady` | src/iohcRadio.cpp:297-757 | In every run of calls from power-up engine and receiver agree on radio state and start(), no empty batch is queued, and the packet counter names a packet whenever the ticker is attached: what the methods ask of their callers |
| `RadioCalls.InterruptedScanResumes` | src/iohcRadio.cpp:604-727 | Over every sequence of send, ticker, callback and receiver calls with clocks before its deadline, back-to-back batches included, a scan stays active over all its channels with the same deadline and dwell |
| `RadioCalls.BatchEndDecides` | src/iohcRadio.cpp:703-727 | After such a sequence the end of a batch leaves a scan active exactly if the deadline has not passed, and then the same one, or if the batch asked to listen, and then a new window; the next batch may already be on air |
| `Sender.TxSender.CallbackTask` | src/iohcRadio.cpp:199-220 | Takes the oldest handed-over packet and frees it |
| `RadioCalls.DispatchedIsRun` | src/iohcRadio.cpp:199-220 | One round of the callback task is the run of taking the packet off the queue and then deleting it |
| `ScanProtocol.ReachableScan` | src/iohcRadio.cpp:297-402 | After start(), in every reachable state, currentFreqIdx < num_freqs <= configuredNumFreqs, and num_freqs is the configured number during a scan and 1 otherwise |
| `ScanProtocol.ApplyKeepsInv` | src/iohcRadio.cpp:297-537 | Every operation and interrupt keeps that invariant |
| `ScanProtocol.QuietTicks` | src/iohcRadio.cpp:522-537 | Any number of undisturbed ticks in closed form: whole dwells of ceil(scanTimeUs / 1000) ticks move the channel cyclically, the remainder is the tick counter |
| `ScanProtocol.DwellsClosedForm` | src/iohcRadio.cpp:523-537 | The channel after a number of whole dwells |
| `ScanProtocol.EveryChannelOncePerRound` | src/iohcRadio.cpp:528-537 | Every window of num_freqs undisturbed dwells visits each channel exactly once |
| `ScanProtocol.ScanEndsAtDeadline` | src/iohcRadio.cpp:416-478 | Over every sequence of ticks, interrupts and transmissions a scan is active, with its deadline, exactly as long as no RX-state tick at or past the deadline has occurred |
| `ScanProtocol.OpEndsScan` | src/iohcRadio.cpp:472-478 | One of these ends a scan exactly if it is such a tick, and then the receiver is on its first channel with the normal dwell |
| `ScanProtocol.PreambleNeverHangs` | src/iohcRadio.cpp:447-470 | A preamble that nothing follows holds the receiver on its channel for exactly 15 ticks, then it is back in RX |
| `ScanProtocol.FrameEndsInRx` | src/iohcRadio.cpp:427-458 | A tick that receives a frame, in PAYLOAD or with a payload ready after a preamble, listens again on the same channel with both counters 0; one that finds TXREADY in PAYLOAD listens again with all else as it was |
| `ScanProtocol.PayloadKeepsChannel` | src/iohcRadio.cpp:480-500 | A payload noticed while a scan listens keeps the channel and starts the dwell anew |
| `ScanProtocol.TickLeavesOthers` | src/iohcRadio.cpp:416-472 | While a batch is active, and outside RX, PREAMBLE and PAYLOAD, a tick changes nothing |
| `ScanProtocol.BackInRxIff` | src/iohcRadio.cpp:416-537 | Without batch and interrupts, any 15 or more ticks, whatever they see, leave the receiver in RX exactly if it was in RX, PREAMBLE or PAYLOAD |
| `ScanProtocol.DeadlineIsReached` | src/iohcRadio.cpp:416-537 | Of any 16 such ticks at or past the deadline of a scan one has ended it |
| `ScanProtocol.ScanBegins` | src/iohcRadio.cpp:336-367 | A scan begins on the first channel with a whole dwell ahead, the dwell as asked, 2.7 ms by default, and never the normal one when there are several channels, unless that is 2.7 ms |
| `ScanProtocol.StartListens` | src/iohcRadio.cpp:297-322 | start() listens on the first channel without a scan, with the dwell asked for or 13.52 ms |
| `ScanProtocol.ScanAfterBatch` | src/iohcRadio.cpp:707-721 | After a batch a scan is active exactly when it was resumed or the batch asked to listen |
| `CarrierTheorems.OnChannelAfterBatch` | src/iohcRadio.cpp:628-721 | At the end of every batch, whatever is sent, received or called back meanwhile, the receiver is on its own channel exactly if, when the batch began, a scan was running, or the batch holds a key transfer, or the last frequency set in it, and otherwise the carrier it found, is that channel |
| `CarrierTheorems.OnChannelAfterSend` | src/iohcRadio.cpp:578-757 | So for a batch sent while nothing is under way, if no other follows |
| `CarrierTheorems.PlainSendLeavesChannel` | src/main.cpp:1213-1228 | From power-up, for all channels and every other frequency, a run with one plain packet on it leaves the receiver off its channel, in RX |
| `CarrierTheorems.StaysOffChannel` | src/iohcRadio.cpp:522-537 | And there it stays through any number of ticks, interrupts and callbacks |
| `Receiver.ScanReceiver.StartTwoWScan` | src/iohcRadio.cpp:336-367 | All configured channels from the first, with the fallback dwell when it would equal the normal one; nothing before start() |
| `Receiver.ScanReceiver.AfterBatch` | src/iohcRadio.cpp:707-721 | The receiver part of the end-of-batch section in its four branches |
| `Receiver.ScanReceiver.ListenTick` | src/iohcRadio.cpp:472-537 | Deadline, payload fallback, or dwelling, in this order |
| `Receiver.ScanReceiver.TickerCounter` | src/iohcRadio.cpp:416-537 | The whole state machine of one tick equals the specified one |
| `CrashSafeStore.SettingsSurvive` | src/iohcRemote1W.cpp:708-979 | For any number of saves, each finished or cut by power loss at any step: the settings file holds, whole, the document of the last save that returned true or of a later cut one, and is missing only before the first |
| `CrashSafeStore.CutSaveRecovers` | src/iohcRemote1W.cpp:708-979 | Power lost after any step of a save, whatever the flash answered: recovery finds the old or the new document |
| `CrashSafeStore.NewerIsRecovered` | src/iohcRemote1W.cpp:708-723 | A save cut while the whole temporary file is there and the settings file is missing is recovered with the new document, whatever the backup holds |
| `CrashSafeStore.FinishedSave` | src/iohcRemote1W.cpp:893-979 | A save that returns true leaves the new document; one that returns false keeps the old one exactly unless both the replacing and the restoring rename failed |
| `CrashSafeStore.FirstSave` | src/iohcRemote1W.cpp:893-979 | The first save, cut or finished, leaves nothing or the whole document |
| `CrashSafeStore.ThreeFailuresLoseEverything` | src/iohcRemote1W.cpp:958-973 | The limit of the scheme: replace and restore failing, and replace failing again in the next save, lose every copy |
| `CrashSafeStore.Flash.Save` | src/iohcRemote1W.cpp:893-979 | The method passes through exactly the modelled disk states and returns the modelled result, for every answer of the flash |
| `CrashSafeStore.Flash.SwapIn` | src/iohcRemote1W.cpp:958-978 | The part with the three files, state by state |
| `CrashSafeStore.Flash.RecoverInterruptedSave` | src/iohcRemote1W.cpp:708-723 | Repairs from the temporary file first, then from the backup, only with whole documents, only when the file is missing |
| `RollingCode.CodesStayFresh` | src/iohcRemote1W.cpp:190-306 | In every run from the factory, with any number of tasks in the middle of commands, heard frames and imports, saves beside them and power lost at any step: the numbers each remote puts on air strictly increase and NVS is above all of them, if no command begins for a remote that has one in progress or at 65535, and no counter is set to a number sent or about to be sent |
| `RollingCode.FreshLostIff` | src/iohcRemote1W.cpp:190-306 | The condition is exact: from every reachable state a step makes it possible that a number goes out that is not above those before, exactly if it is of that kind; so commands may overlap exactly if they are for different remotes |
| `RollingCode.OverlapRepeats` | src/iohcRemote1W.cpp:187-191 | For every k a run from the factory in which two overlapping commands for one remote both send k |
| `RollingCode.FilesBelowIff` | src/iohcRemote1W.cpp:786-979 | With counters only moving forward, however tasks overlap, no counter in a file is ever ahead of NVS exactly if no save completes a document that has read a counter whose change is still on its way to NVS |
| `RollingCode.OverlapGetsAhead` | src/iohcRemote1W.cpp:55-61 | The run in which the position task's save does that and power is lost: the file holds k + 1 and NVS k |
| `RollingCode.StepInv` | src/iohcRemote1W.cpp:679-801 | Each step of commands, synchronisation, import, saving, loading and power loss that is not of that kind keeps RAM, NVS, air and the numbers about to be sent in order |
| `RollingCode.HearMovesForward` | src/iohcRemote1W.cpp:1106-1122 | Hearing the number k further on the circle moves the counter there, in RAM and then in NVS, exactly for 1 <= k < 0x8000, and otherwise changes nothing |
| `RollingCode.HearLowersIff` | src/iohcRemote1W.cpp:1106-1122 | A heard number lowers the counter exactly if it lies across the end of the circle, less than half of it away; up to 0x8000 none does |
| `RollingCode.WrapRepeatsAfterReboot` | src/iohcRemote1W.cpp:793-801 | Where wrap breaks it, from the factory: the numeric maximum prefers the older number, and a reboot makes a remote send 65535 twice |
| `RollingCode.ReimportRepeats` | src/iohcRemote1W.cpp:1048-1093 | Where a re-import breaks it, from the factory: for every k below 65535 a run sends k twice |
| `RollingCode.Remotes.ImportLearnedRemote` | src/iohcRemote1W.cpp:1048-1093 | The entry is new or overwritten and NVS follows, as the protocol's two steps have it |
| `RollingCode.CommandRun` | src/iohcRemote1W.cpp:187-208 | A whole command without interruption is the run stamp, advance, store, send, whatever other tasks are in the middle of |
| `RollingCode.Remotes.SendNext` | src/iohcRemote1W.cpp:187-208 | The shared tail of the commands has the effect of that run, and stamps the number held before |
| `RollingCode.Remotes.SyncSequence` | src/iohcRemote1W.cpp:1106-1122 | Takes over a number 1 to 0x7FFF ahead modulo 2^16, in RAM and NVS together; otherwise changes nothing |
| `RollingCode.Remotes.Load` | src/iohcRemote1W.cpp:786-801 | After the loop every entry of the file has the larger of its two numbers in RAM and NVS, and no other counter changed |
| `GaloisField.MixUndone` | include/crypto2Wutils.h:246-257 | The matrices of sections 5.1.3 and 5.3.3 of FIPS 197 undo each other on every column |
| `GaloisField.MulAdd` | include/crypto2Wutils.h:241-243 | Multiplication in GF(2^8) built from xtime distributes over addition |
| `SubstitutionBox.TableIsFips` | include/crypto2Wutils.h:99-115 | Each of the 256 table entries is the affine image of the multiplicative inverse of its index, section 5.1.1 of FIPS 197 |
| `SubstitutionBox.SboxBijective` | include/crypto2Wutils.h:99-115 | The table is a bijection |
| `Aes.CipherUndone` | include/crypto2Wutils.h:259-281 | For every block and every key schedule the inverse cipher of section 5.3 undoes the cipher, and the cipher undoes it |
| `Aes.CipherInjective` | include/crypto2Wutils.h:283-286 | Under one key different blocks have different images |
| `AesExamples.RoundKey10` | include/crypto2Wutils.h:124-181 | The key expansion of appendix A.1 of FIPS 197, round key by round key |
| `AesExamples.CipherExample` | include/crypto2Wutils.h:259-281 | The cipher text of appendix B of FIPS 197 |
| `AesCode.ShiftRows` | include/crypto2Wutils.h:214-239 | The in-place moves are the row rotation of section 5.1.2 |
| `AesCode.SharedSumIsProduct` | include/crypto2Wutils.h:246-257 | The column computed through one shared sum equals the matrix product of section 5.1.3 |
| `AesCode.MixColumns` | include/crypto2Wutils.h:246-257 | The loop computes the matrix product for every column in place |
| `AesCode.RconIsPower` | include/crypto2Wutils.h:117-119 | Entries 1 to 10 of the table are the powers of x |
| `AesCode.Schedule` | include/crypto2Wutils.h:141-173 | RotWord, SubWord and the round constant as section 5.2 applies them |
| `AesCode.KeyExpansion` | include/crypto2Wutils.h:124-181 | The filled buffer is the key schedule of section 5.2 |
| `AesCode.EncryptRounds` | include/crypto2Wutils.h:259-281 | The loop with its break in the middle is the cipher of section 5.1 |
| `AesCode.EcbEncrypt` | include/crypto2Wutils.h:184-286 | Key set-up and encryption of one block in place give the AES-128 image of the block |
| `Crc.ComputeCrc` | src/iohcCryptoHelpers.cpp:70-77 | The loop over eight bits equals eight turns of the register |
| `Crc.RadioPacketComputeCrc` | src/iohcCryptoHelpers.cpp:83-90 | The loop over the buffer gives the check of the frame |
| `Crc.FrameIsFed` | src/iohcCryptoHelpers.cpp:70-90 | The byte-wise check equals the bit-serial shift register fed least significant bit first |
| `Crc.FedLinear` | src/iohcCryptoHelpers.cpp:70-90 | The register of the difference of two messages of one length is the difference of their registers |
| `Crc.BurstDetected` | src/iohcCryptoHelpers.cpp:70-90 | Every non-zero error confined to 16 consecutive bits changes the check, for messages of any length and any initial value |
| `Crc.AppendedCheckIsZero` | src/iohcCryptoHelpers.cpp:70-90 | A message followed by two bytes has check 0 exactly when they are its own check, low byte first |
| `Crc.CheckOfOne` | src/iohcCryptoHelpers.cpp:70-77 | The check of the byte 0x01 is 0x1189 |
| `Crc.CheckOfDigits` | src/iohcCryptoHelpers.cpp:70-90 | The check of the digits 1 to 9 in ASCII is 0x2189, the published value of this CRC |
| `InitialValue.StepsAgree` | src/iohcCryptoHelpers.cpp:105-115 | The two checksum implementations agree on every byte and state |
| `InitialValue.StepIsShift` | include/crypto2Wutils.h:37-55 | A checksum step is one turn of a 16-bit shift register with feedback 0x555B |
| `InitialValue.ValueBytes` | include/crypto2Wutils.h:57-91 | The initial value byte by byte: eight frame bytes or 0x55, the checksum, challenge or sequence number and 0x55 |
| `InitialValue.StepInjective` | include/crypto2Wutils.h:37-55 | A checksum step is injective in the byte and in the state |
| `InitialValue.TwoWayInitialValue` | include/crypto2Wutils.h:57-91 | The first implementation computes the specified initial value in place for every frame and challenge |
| `InitialValue.OneWayInitialValue` | src/iohcCryptoHelpers.cpp:117-151 | The second one computes the same value in its challenge mode, the sequence variant in the other, nothing in neither |
| `InitialValue.SumsStayApart` | include/crypto2Wutils.h:57-72 | Frames of one length that differ in exactly one byte have different checksums |
| `InitialValue.OneByteChangesTheImage` | include/crypto2Wutils.h:57-91 | So their initial values differ, whatever challenge or sequence number is used, and so do their 16-byte AES images under any one key |
| `OneWay.TransformInvolution` | src/iohcCryptoHelpers.cpp:187-227 | Transforming a key twice gives it back: the same routine encrypts and decrypts |
| `OneWay.NodeBlockBytes` | src/iohcCryptoHelpers.cpp:196-202 | The block the transform is keyed with is the node address five times and its first byte |
| `OneWay.Encrypt1WKey` | src/iohcCryptoHelpers.cpp:187-227 | The code is one block of CFB (section 6.3 of NIST SP 800-38A) over the repeated node address |
| `OneWay.Create1WHmac` | src/iohcCryptoHelpers.cpp:159-179 | The image a frame's six MAC bytes are cut from is AES of the initial value in its sequence mode, as the pairing theorems use it |
| `OneWay.TypeRoundTrip` | src/main.cpp:157-163 | The type read from a broadcast target is the type it was built from, for all 256 types |
| `OneWay.OneWayRemote.Sign` | src/iohcRemote1W.cpp:170-208 | The 0x2E and 0x39 frames with sequence number and MAC; the counter advances by one, wrapping at 16 bits |
| `OneWay.OneWayRemote.SendKey` | src/iohcRemote1W.cpp:267-306 | The 0x30 frame with encrypted key, manufacturer and sequence number |
| `PairingTheorems.StoredOnlyOnProof` | src/main.cpp:563-852 | In any run from power-up a peer is stored only by a 0x3D of its own, after the last 0x29 taken up, the 0x2D for which the last 0x38 challenge was sent and the 0x32 for which the last 0x3C challenge was sent, all its own and in this order, with the first six bytes of AES under a key decrypted from that 0x32 with that 0x38 challenge, over that 0x3C challenge; what is stored comes from that 0x29 |
| `PairingTheorems.SentIsKept` | src/main.cpp:563-949 | Every frame the gateway sends goes to the session's peer, and the challenge in it is the fresh one kept to decrypt the key or check the answer with |
| `PairingTheorems.ClosedIgnoresFrames` | src/main.cpp:538-1080 | Outside pairing mode no frame changes a session |
| `PairingTheorems.AnswerEndsPairing` | src/main.cpp:800-852 | An answer that is checked ends pairing mode and both sessions, right or wrong; the peer is stored, with the bytes of its discover answer in their places, exactly if the six bytes are those of AES under one of the two candidate keys |
| `PairingTheorems.OtherAnswersIgnored` | src/main.cpp:800-810 | Every other 0x3D changes nothing |
| `PairingTheorems.OneAnswerPerChallenge` | src/main.cpp:640-852 | In every run from power-up the gateway sends a new 0x3C challenge between two answers that are checked |
| `PairingTheorems.ImportedOnlyOnProof` | src/main.cpp:978-1080 | In any run from power-up a remote is imported only by a 0x30 of its own, after the 0x2E of its own that was the last to start a session and the 0x39 of its own that was the last to be captured, whose MAC is that of the imported key, all within 120 s and in this order |
| `PairingTheorems.LearnEvidenceOf` | src/main.cpp:978-1080 | In every run an active learn session comes from the last 0x2E that started one, and its captured challenge from the last 0x39 captured, later, of the same source, in time |
| `PairingTheorems.UnprovedKeyIgnored` | src/main.cpp:978-1003 | A 0x30 that is short, of another source, late, or without a captured challenge whose MAC is that of its key changes nothing |
| `PairingTheorems.ProvedKeyImported` | src/main.cpp:1004-1025 | Every other one in pairing mode imports what it carries; pairing ends if that could be saved and goes on as it was if not |
| `PairingTheorems.WindowsReset` | src/interact.cpp:60-95 | Opening and closing the pairing window drops both sessions, the toggle none |
| `PairingTheorems.EvidenceOf` | src/main.cpp:563-949 | In every run the stage of the session tells which frames of which peer were the last to be taken up and challenged, and that its metadata, keys and challenges come from them |
| `PairingTheorems.EvidenceStep` | src/main.cpp:538-1080 | Every frame and window event keeps that correspondence |
| `PairingTheorems.HonestKeyArrives` | src/main.cpp:616-653 | For every key, encrypted for the issued challenge under either command byte, that key is one of the two candidates |
| `PairingTheorems.HonestDeviceIsStored` | src/main.cpp:563-949 | In pairing mode a device that keeps to the protocol is stored with its own data and the session resets, whatever harmless frames come in between |
| `PairingTheorems.LearnRoundTrip` | src/main.cpp:978-1080 | The frames sent for a remote make a receiver in pairing mode, in whatever state its sessions are, import exactly its node, key, manufacturer and type and the sender's next sequence number, within 120 s of the start of the session, which an earlier 0x2E of the same remote may have opened, whatever repetitions and foreign frames come in between |
| `PairingTheorems.SignedReadsBack` | src/main.cpp:1058-1077 | What the receiver reads from a 0x2E or 0x39 frame is what the sender put in |
| `PairingTheorems.KeyReadsBack` | src/main.cpp:978-1011 | The same for the 0x30 frame, with the key decrypted |
| `PairingTheorems.GapLeavesLearn` | src/main.cpp:978-1080 | Repetitions and harmless foreign frames leave a learn session as it is |
| `PairingTheorems.GapLeavesTwoWay` | src/main.cpp:563-949 | Harmless frames leave a two-way session as it is |
| `PairingCode.PairingSession.DecryptTransferredKey` | src/main.cpp:218-233 | The key that encrypts to the transferred one under the issued challenge |
| `PairingCode.PairingSession.AuthenticateTransferredKey` | src/main.cpp:235-246 | Accepts exactly the first six bytes of the expected block |
| `PairingCode.PairingSession.KeyTransfer` | src/main.cpp:616-653 | Keeps the transfer and both candidate keys, and challenges the peer |
| `PairingCode.PairingSession.ChallengeAnswer` | src/main.cpp:800-852 | Stores the peer exactly when some candidate explains the answer; the session ends either way |
| `PairingCode.PairingSession.Learn` | src/main.cpp:1026-1057 | A new learn session exactly for another source or after 120 s |
| `PairingCode.PairingSession.VerifySolarChallenge` | src/main.cpp:170-188 | Accepts exactly the key that explains the captured MAC |
| `PairingCode.PairingSession.KeyFrame` | src/main.cpp:978-1025 | Imports exactly an explained key of the session's source in time; the session ends when it could be saved |
| `PairingCode.PairingSession.MsgRcvd` | src/main.cpp:538-1080 | The dispatch of the seven commands of the two chains equals the protocol's step for every frame, and every other command leaves both sessions alone |
| `Wire.VarintRoundTrip` | src/esphome_server.cpp:55-120 | Every 64-bit value reads back, and the reader stops right behind it (Base 128 Varints of the Protocol Buffers Encoding guide) |
| `Wire.VarintDigits` | src/esphome_server.cpp:55-61 | The bytes of a varint are the base-128 digits of the value, lowest first, all but the last with the top bit set, and no more of them than needed |
| `Wire.GuideExamples` | src/esphome_server.cpp:49-96 | The examples of the Protocol Buffers Encoding guide, and a 32-bit field low byte first |
| `Wire.TagRoundTrip` | src/esphome_server.cpp:63-128 | A tag reads back its wire type, and its field number exactly when it is below 2^29 |
| `Wire.Fixed32RoundTrip` | src/esphome_server.cpp:77-166 | Every 32-bit value reads back |
| `Wire.FieldSkipped` | src/esphome_server.cpp:130-156 | Skipping a well-formed field of wire type 0, 1, 2 or 5 lands right behind it |
| `Wire.FieldRoundTrip` | src/esphome_server.cpp:49-185 | Every well-formed field that was written reads back its number, type and value, strings included |
| `Wire.SkipStaysInside` | src/esphome_server.cpp:130-156 | On any bytes skipping stays inside the buffer, and goes forward when no length wraps |
| `Wire.BlobMovesOn` | src/esphome_server.cpp:140-147 | An accepted length moves the reader on from behind it exactly when the 64-bit addition does not wrap |
| `Decoding.TurnMovesOn` | src/esphome_server.cpp:640-668 | On any bytes a turn of a field loop stays inside the buffer, and moves the reader on exactly unless it skips a length-delimited field whose length wraps the addition to where the turn began or before |
| `Decoding.DecodeEnds` | src/esphome_server.cpp:640-668 | On any bytes the loop ends with every turn moving on inside the buffer exactly if it comes to no such length |
| `Decoding.FieldsLeadOn` | src/esphome_server.cpp:632-793 | A buffer that holds a list of well-formed fields is such bytes, whatever the values of its fields |
| `Decoding.WrappedLengthGoesBack` | src/esphome_server.cpp:140-147 | A length for which the addition wraps and the reader is back where it was |
| `Decoding.FieldsDecoded` | src/esphome_server.cpp:632-793 | A buffer holding a list of well-formed fields decodes to what the list says, for every table of known fields |
| `Decoding.UnknownIgnored` | src/esphome_server.cpp:632-793 | What a list of fields says depends on its known fields only |
| `Decoding.ForwardCompatible` | src/esphome_server.cpp:632-793 | Messages that agree on the known fields decode alike, wherever other fields are inserted |
| `Decoding.LastValueWins` | src/esphome_server.cpp:632-793 | The value of a known field is the last one given |
| `ProtoCode.ProtoWriter.WriteVarint` | src/esphome_server.cpp:55-61 | The loop appends the varint |
| `ProtoCode.ProtoWriter.WriteVarintField` | src/esphome_server.cpp:67-70 | Appends a whole scalar field, which the reading theorems take back |
| `ProtoCode.ProtoWriter.WriteBoolField` | src/esphome_server.cpp:72-75 | Appends 0 or 1 as a scalar field |
| `ProtoCode.ProtoWriter.WriteFixed32Field` | src/esphome_server.cpp:77-83 | Appends a whole 32-bit field |
| `ProtoCode.ProtoWriter.WriteStringField` | src/esphome_server.cpp:91-96 | Appends a length-delimited field, and nothing for an empty string |
| `ProtoCode.ProtoReader.ReadVarint` | src/esphome_server.cpp:109-120 | Value, offset and success of the loop, also where it fails |
| `ProtoCode.ProtoReader.ReadTag` | src/esphome_server.cpp:122-128 | Splits the tag |
| `ProtoCode.ProtoReader.ReadFixed32` | src/esphome_server.cpp:158-166 | Reads four bytes or leaves the variable alone |
| `ProtoCode.ProtoReader.SkipField` | src/esphome_server.cpp:130-156 | Skips as specified, with the 64-bit sum and 32-bit offset |
| `ProtoCode.ProtoReader.ReadString` | src/esphome_server.cpp:177-184 | For every length: refuses, takes exactly the announced bytes, or, exactly if the accepted length wraps the addition, takes bytes outside the buffer; it stops where skipping would |
| `ProtoCode.CoverField` | src/esphome_server.cpp:645-667 | One field of a cover command takes the value of its number or is skipped |
| `ProtoCode.HandleCoverCommand` | src/esphome_server.cpp:632-668 | The loop over the fields gives the decoded command |
| `ProtoCode.HandleNumberCommand` | src/esphome_server.cpp:778-793 | The same for the number command |
| `ProtoCode.HandleButtonCommand` | src/esphome_server.cpp:719-730 | The same for the button command |
| `ProtoCode.CoverMeans` | src/esphome_server.cpp:632-668 | On every list of well-formed fields a cover command means what its last fields say: key 1, legacy command 2 and 3, position 4 and 5, stop 8 |
| `ProtoCode.NumberAndButtonMean` | src/esphome_server.cpp:719-793 | A number command has key and state in fields 1 and 2, a button command its key in field 1 |
| `Framing.FrameReceived` | src/esphome_server.cpp:890-975 | A frame with a payload of at most 16384 bytes is received as sent, and reading stops right behind it |
| `Framing.StreamRoundTrip` | src/esphome_server.cpp:229-975 | Reading the concatenation of any list of frames returns exactly the list and stops at the end |
| `Framing.ShortFrame` | src/esphome_server.cpp:229-236 | A short frame byte by byte: 0, length, type, payload |
| `Framing.OnlyAnnounced` | src/esphome_server.cpp:890-975 | What is received was announced: zero byte, length of at most 16384 that the payload has, type, and reading stops behind it |
| `Framing.OversizedRefused` | src/esphome_server.cpp:952-957 | A longer payload ends the session |
| `Framing.BuildFrame` | src/esphome_server.cpp:229-236 | What sendFrame puts together is the frame |
| `Framing.ClientSession.ReceiveVarint` | src/esphome_server.cpp:916-950 | The two byte-wise loops read like the reader |
| `Framing.ClientSession.Recv` | src/esphome_server.cpp:962-969 | A read returns a next piece of the stream, of any size |
| `Framing.ClientSession.ProcessClientSession` | src/esphome_server.cpp:890-975 | One pass equals the specified one, however the payload arrives in pieces |
| `Position.PollingDoesNotMatter` | src/blind_position.cpp:69-100 | Any polling schedule gives the position of one update at its last poll, snapping included |
| `Position.UpdateMonotone` | src/blind_position.cpp:69-100 | The position stays within 0 to 100 and moves only in the direction of the motion |
| `Position.MotionEndsOnTime` | src/iohcRemote1W.cpp:415-509 | After a position command, for every polling schedule: already within half a percent and left there, or under way until the first poll at which the motion is due, and then at rest exactly at the goal |
| `Position.CommandAimsAtGoal` | src/iohcRemote1W.cpp:420-452 | From position and goal only: the blind opens exactly if the goal lies more than half a percent above, closes exactly if more than that below, stops otherwise |
| `Position.RestsAfterTravelTime` | src/iohcRemote1W.cpp:415-509 | For every goal more than half a percent away and every polling schedule the remote is at rest there exactly when its last poll comes distance * travelTime / 100 seconds after the command or later, with the travel time of the direction the goal lies in, and half a percent less to go to the ends of the scale |
| `Position.LastsFullTimeIff` | src/blind_position.cpp:69-93 | For every start, goal and travel time: a motion lasts |goal - start| * travelTime / 100 seconds, to the microsecond, exactly if it does not go to the end of the scale it moves towards |
| `Position.EndsEarlyAtTheEnds` | src/blind_position.cpp:83-92 | Every remote sent to that end has a poll before its full time at which it is at rest there |
| `Position.CommandsMirror` | src/iohcRemote1W.cpp:415-462 | A position and the complementary absolute value steer the estimate alike; the bytes sent are 200 - 2 * percent and 0, or 512 * percent in two bytes, so different positions send different ones |
| `Position.CommandsClamp` | src/iohcRemote1W.cpp:415-457 | Arguments outside the scale count as its ends |
| `PositionCode.BlindPosition.Update` | src/blind_position.cpp:69-100 | The method is the integrator's step |
| `PositionCode.TrackedRemote.MoveTo` | src/iohcRemote1W.cpp:420-452 | Opens exactly for a goal more than half a percent above the position, closes exactly for one more than that below, stops otherwise |
| `PositionCode.TrackedRemote.CommandPosition` | src/iohcRemote1W.cpp:415-437 | The Position command: the goal it stores, the motion it starts, the parameter it sends |
| `PositionCode.TrackedRemote.CommandAbsolute` | src/iohcRemote1W.cpp:438-462 | The Absolute command, the same |
| `PositionCode.TrackedRemote.Poll` | src/iohcRemote1W.cpp:1309-1330 | One entry of the poll, as specified |
| `PositionCode.UpdatePositions` | src/iohcRemote1W.cpp:1308-1330 | Every entry is polled once and none disturbs another |
| `RadioFrame.FlagsIntact` | src/main.cpp:341-361 | Adding the data size to the whole first byte leaves the flags and gives the length exactly for at most 23 bytes of data |
| `RadioFrame.OnlyFramedAccepted` | src/iohcRadio.cpp:847-1013 | Whatever the FIFO delivers and when, an accepted frame has 9 to 32 bytes and the length it announces |
| `RadioFrame.FrameComesOut` | src/iohcRadio.cpp:847-1013 | A frame delivered within the time limits comes out byte for byte, whatever trails behind it |
| `RadioFrame.ReceivedIff` | src/iohcRadio.cpp:847-1013 | The receiver accepts precisely the frames of 9 to 32 bytes that announce their own length, are what the FIFO delivers first, and are delivered within 12 ms without a gap of 1.2 ms, during a scan within 30 ms without one of 3.5 ms |
| `FrameTheorems.OneWayFramed` | src/iohcRemote1W.cpp:95-312 | The frame of every one-way command, any command byte with up to 23 bytes of data behind its header, keeps its flags and announces its length |
| `FrameTheorems.LearnFramesAreOneWay` | src/iohcRemote1W.cpp:170-312 | The frames of the pair, remove and add commands are such frames |
| `FrameTheorems.OneWayComesOut` | src/iohcRadio.cpp:847-885 | Sender to receiver: every one-way command frame comes out byte for byte when delivered in time, whatever trails behind it |
| `FrameTheorems.ForgedComesOut` | src/iohcRadio.cpp:847-885 | So does every frame that forgePacket starts, whatever flags, addresses and command are put in |
| `FrameTheorems.ForgePacket` | src/main.cpp:341-361 | The forged two-way frame keeps its flags, carries the data and is acceptable to the receiver |
| `FrameTheorems.OnlyTwoWay32Listens` | src/iohcRadio.cpp:610-616 | No one-way command frame asks for listening after it, and a forged two-way frame does exactly if its command is 0x32 |
| `FifoCode.Reader.Listen` | src/iohcRadio.cpp:856-885 | The reading loop with its three ways to stop |
| `FifoCode.ReceiveFrame` | src/iohcRadio.cpp:847-1013 | Loop and checks together |

## Left out

- SPI, registers, GPIO, LEDs, timers and FreeRTOS: frames on air, clocks and flags stand for them; tasks interleave at mutex and queue boundaries, and each section between them is one step.
- Memory addresses: packets are values with an identity; ownership is counted by identity, and aliasing beyond that is not modelled.
- The radio object is split in two classes, `TxSender` and `ScanReceiver`, that share no field; the carrier frequency lives in the second.
- TxTheorems.AirFollowsQueue: runs with batches above 255 packets are outside it; by `AirFollowsQueueIffFits` it is false of them.
- TxTheorems.BatchTimeBound: the end-of-batch section counts as no time, the preparation before the first frame is not bounded, and batches above 255 packets never end (`BatchEndsIffItFits`).
- RadioCalls.InterruptedScanResumes: takes each call as one step; how the parts of calls of different tasks interleave is modelled for the transmit engine only.
- RollingCode.CodesStayFresh: does not cover overlapping commands for one remote, counters that wrap by sending or are set to a number already passed, for which it is false (`FreshLostIff`).
- RollingCode: restoring or uploading the settings file through the web interface.
- CrashSafeStore.SettingsSurvive: assumes that in one save not both the replacing and the restoring rename fail; `FinishedSave` and `ThreeFailuresLoseEverything` cover that case.
- PairingTheorems.HonestDeviceIsStored: the peer is an ideal device; the gateway's own 0x38 and 0x3C responders, which do not remember the key they sent, are not modelled.
- PairingTheorems.StoredOnlyOnProof: objects added by a 0x2B answer, which needs no pairing, are outside it.
- PairingProtocol: the alternate pairing mode and the frequencies of the frames sent; the wrap of the millisecond clock beyond its modular difference.
- PairingCode.PairingSession.MsgRcvd: the sequence synchronisation of known remotes on 0x2E and 0x39, which is in `RollingCode`, and what commands outside the two chains do.
- The MAC and the checks are modelled as functions; cryptographic strength and random number quality are not stated.
- mbedtls: taken to compute AES-128, the function proved in `AesCode`.
- Hexadecimal helpers, and the spelling of the transfer key as text.
- The CC1101 and ESP8266 branches of the code.
- Floats in Protocol Buffers messages are their 32-bit patterns; what the cover command then does with a remote is not modelled.
- Decoding: after a turn that goes back, the loops are not followed further; `ProtoReader.ReadString` says which lengths take bytes outside the buffer, but not which bytes.
- Framing.ClientSession.ProcessClientSession: the socket delivers what the peer sent before closing; waiting without data, partial writes and activity times are not modelled.
- Position: publishing, display and saving of positions, and rounding of floats.
- RadioFrame: the wrap of the microsecond clock, and the registers around the reading loop.
- One-way commands other than pair, remove and add: what their data bytes mean; their header, length and transmission are covered (`OneWayRemote.Start`, `FrameTheorems.OneWayComesOut`).
- Wi-Fi, MQTT, web server, display, logging, the remote map, Cozy commands and command scanning.
