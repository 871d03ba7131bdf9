# AVB endpoint: verified models

Dafny models of the audio and control paths of an AVB endpoint built from gateware (LiteX and
Verilog) and firmware (C), with proofs of what those paths promise. Times, bus beats, CSR writes,
received frames and randomness in arrival are inputs, so every theorem about a run holds for all of
them. Fixed widths, truncating division and wrap-around are written out.

A component with registers is a class with those registers. Its `Clock` method performs one clock
and is proved equal to a step function on the whole register state; theorems about runs are then
proved about the step functions. Firmware objects are classes over their arrays and fields, each
method proved against a function of the old state.

| part | modules |
|---|---|
| media clock: servo, oscillator, I2S shifter | `Mcr`, `Nco`, `I2s` |
| AAF talker (section 7 of IEEE 1722-2016): USB assembler, block FIFO, ping-pong buffer, frame builder, frame-atomic arbiter, and the firmware talker it replaces | `AafFrame`, `Assembler`, `Packetizer`, `TalkerRuns`, `AafFirmware`, `Arbiter` |
| AAF listener: frame buffer, match pipeline, sample replay | `Extractor`, `ListenerRuns` |
| both together | `EndToEnd` |
| AES3 (section 4 of IEC 60958-1): receiver in intervals, then in clocks; transmitter; both on a wire | `Aes3Line`, `Aes3Decode`, `Aes3Streams`, `Aes3Rx`, `Aes3Cells`, `Aes3Timing`, `Aes3Settling`, `Aes3Tx`, `Aes3Sent`, `Aes3Link` |
| MSRP (section 10.8 of IEEE 802.1Q-2018): PDU grammar, emitters, parser, table of talkers | `Mrpdu`, `Registrar`, `Srp` |
| ACMP deferred connect (section 8.2.2 of IEEE 1722.1-2013) | `Acmp`, `AcmpRuns` |
| gPTP filters | `Gptp` |
| octets and fixed-width arithmetic | `Bytes` |

The configuration is the deployed one: 50 MHz, 48 kHz, one extractor slot with two stored channels of
eight on the wire, two ACMP listeners. Where code and comments differ, the code is followed: the
comments at `rtl/_aes3_backup/aes3_tx.v:113-115` give run lengths for the X and Y preambles that the
patterns below them do not have (they are 3, 3, 1, 1 and 3, 2, 1, 2), and the comment at
`avtp_extractor.py:285-287` takes all header words to be those of the frame that ends, which holds from
nine words on.

Some promises fail outside a condition, and the condition is proved exactly.

- The frames hidden from the CPU have all their own samples extracted if and only if each has full
  size and ends more than 50 clocks after the one before (`ListenerRuns.DiscardIffExtracted`): a closer
  one is not replayed (`ListenerRuns.ShortFrameIsLost`), a shorter one is replayed with octets of
  earlier frames at its end (`ListenerRuns.OwnSamplesExactly`), and a frame of fewer than nine words is
  judged on header words that earlier frames left (`ListenerRuns.RuntFollowsOurs`).
- The MRP parser visits every FirstValue of a PDU if and only if no vector has a zero header; one that
  has reads as an end mark (`Mrpdu.EmptyVectorHidesTheRest`).
- A sample loaded into the AES3 transmitter inside a subframe gives the new sample's payload if and only
  if the bits already sent agree with it, and even parity if and only if they have the same parity
  (`Aes3Sent.LoadMidSubframe`).
- The servo's integral is the drift since the baseline if and only if no sample strays beyond its clamp
  (`Mcr.IntegralTelescopes`).
- The watchdog returns the oscillator of a silent stream to its nominal rate if and only if a tick has seen
  its samples (`Mcr.StaleExactly`); a stream restarted with as many samples as the tick before had seen
  is kept for ever (`Mcr.RestartGoesUnnoticed`).
- The neighbour rate ratio drops every gain beyond 10 ppm if and only if the gain is not that close to a
  multiple of 2^32 other than 0 (`Gptp.GarbageTakenExactly`): the quotient is cut to 32 bits first.
- The transmitter's `audio_ready` rises at the end of an A subframe, not of a frame
  (`Aes3Sent.ReadyExactly`), so a source that answers it at once sends pairs torn apart
  (`Aes3Sent.PromptLoadSplitsPair`). The comment at `rtl/_aes3_backup/aes3_tx.v:150` takes it for the
  start of an A subframe.

## Model

| member | source | states |
|---|---|---|
| `Mcr.McrState.constructor` | `firmware/mcr.c:27-41` | power-up state: unbound, nominal increment in the NCO |
| `Mcr.McrState.UpdateLock` | `firmware/mcr.c:263-301` | lock hysteresis in place, equal to the two-threshold specification |
| `Mcr.McrState.Tune` | `firmware/mcr.c:226-262` | clamped integral, clamped correction and clamped increment, in place |
| `Mcr.McrState.Update` | `firmware/mcr.c:226-301` | one servo update is the specified step on the whole state |
| `Mcr.McrState.WatchdogTick` | `firmware/mcr.c:54-90` | stale-stream watchdog with the unsigned age, on the whole state |
| `Mcr.McrState.BindStream` | `firmware/mcr.c:92-127` | what a bind resets and what it keeps |
| `Mcr.McrState.UnbindStream` | `firmware/mcr.c:129-150` | an unbind returns the NCO to the nominal increment |
| `Mcr.McrState.PumpHw` | `firmware/mcr.c:303-323` | draining at most 64 pairs is the servo run on them, oldest first; nothing is popped while unbound |
| `Mcr.McrState.ProcessRx` | `firmware/mcr.c:208-224` | the sample of a frame the CPU received waits for the next servo run |
| `Mcr.IncrementStaysBounded` | `firmware/mcr.c:249-262` | over any run of hardware samples, samples of CPU-received frames, servo runs, watchdog ticks, binds and unbinds the NCO increment stays in [1, base + 2^24] |
| `Mcr.DeployedIncrements` | `firmware/mcr.c:27-41` | the deployed clocks give 4,123,169 and hence 20,900,385 as the largest increment ever written |
| `Mcr.NominalIncrementIsNearest` | `firmware/mcr.c:27-41` | the nominal increment is the nearest integer to fs 2^32 / f |
| `Mcr.BaselineSample` | `firmware/mcr.c:226-248` | the first sample after a bind only fixes the origin |
| `Mcr.IntegralTelescopes` | `firmware/mcr.c:239-248` | the integral is last offset minus first offset at every sample if and only if no sample strays further than the clamp |
| `Mcr.ServoAnswers` | `firmware/mcr.c:226-262` | one sample: the increment is the nominal one minus the rate error minus a 32nd of the integral, cut towards zero, and stands at a limit only for errors beyond it; a late source slows the oscillator, an early one speeds it up |
| `Mcr.ServoIsMonotone` | `firmware/mcr.c:226-262` | the later a sample, the lower the increment, clamps included |
| `Mcr.IncrementFollowsDrift` | `firmware/mcr.c:226-262` | over any samples within the clamp the increment is the nominal one minus the last step minus a 32nd of the drift since the first sample |
| `Mcr.BindStartsAfresh` | `firmware/mcr.c:92-127` | so it is after a bind, whatever the servo held; the oscillator keeps its rate until the second sample |
| `Mcr.UnbindReturns` | `firmware/mcr.c:129-150` | after an unbind, whatever happens but a bind, the oscillator runs at its nominal rate and nothing is locked |
| `Mcr.StaleExactly` | `firmware/mcr.c:54-90` | after the last sample, over any watchdog ticks: the stream is dropped if and only if a tick comes more than 1000 ms after the one that saw a new count; a count equal to the one seen before goes unnoticed |
| `Mcr.RestartGoesUnnoticed` | `firmware/mcr.c:54-90` | an input: a stream restarted with as many samples as the watchdog saw last is never dropped, however long it is silent |
| `Mcr.SamplesAreCounted` | `firmware/mcr.c:303-323` | every sample after a baseline is one servo step and one received packet |
| `Mcr.PathsAgree` | `firmware/mcr.c:208-224` | a sample of a CPU-received frame and the servo run after it do what a hardware sample does, but for its counter |
| `Mcr.PumpIsSamples` | `firmware/mcr.c:303-323` | draining the FIFO is running the servo on its offsets, oldest first |
| `Mcr.OffsetIsDifference` | `firmware/mcr.c:315-317` | the offset is the 64-bit difference of AVTP time and receive time as a signed number |
| `Mcr.UnlocksArePaidFor` | `firmware/mcr.c:263-301` | every servo unlock is paid for by four samples beyond 10,000 ns |
| `Mcr.UnlocksAtMostAQuarter` | `firmware/mcr.c:263-301` | from power-up, unlocks number at most a quarter of the samples beyond 10,000 ns |
| `Mcr.ThreeBadSamplesKeepLock` | `firmware/mcr.c:263-301` | three bad samples in a row never cost the lock |
| `Mcr.LockedExactly` | `firmware/mcr.c:263-301` | over any samples from an unlocked servo: it is locked if and only if some rate error below 2,000 ns has not been followed by four in a row beyond 10,000 ns |
| `Nco.MCRNco.Clock` | `avb_soc.py:232-248` | one clock of the phase accumulator; the carry is the registered strobe |
| `Nco.PhaseConserved` | `avb_soc.py:238-244` | over any increments: their sum is the phase left over and 2^32 for every strobe, and the counter has counted every strobe |
| `Nco.StrobeRate` | `avb_soc.py:207-211` | at a constant increment N clocks from reset raise floor(N inc / 2^32) strobes |
| `Nco.PaceKept` | `avb_soc.py:238-244` | a phase bound that every clock keeps and that rules out an early strobe |
| `Nco.StrobesAreSpaced` | `avb_soc.py:238-244` | with increments up to the largest the servo writes, any two strobes are at least 205 clocks apart |
| `Nco.ServoStrobesAreSpaced` | `firmware/mcr.c:249-262` | so they are whatever the servo does: every increment it can leave in the oscillator is one of those |
| `I2s.MCRI2STx.Clock` | `avb_soc.py:298-311` | sample latch, repeat and underrun count at each strobe |
| `I2s.MCRI2STx.Pins` | `avb_soc.py:292-334` | BCK, LRCK and DOUT as functions of the phase bits and the latched pair |
| `I2s.EdgeShowsSlot` | `avb_soc.py:313-334` | what is on DOUT while BCK is high is exactly the current slot of the I2S frame |
| `I2s.InvOnRuns` | `avb_soc.py:292-334` | at every clock the slots seen are whole frames of latched pairs plus the slots of the current one |
| `I2s.EverySlotRecovered` | `avb_soc.py:292-334` | from reset, for every run of increments, every sampled slot is the right slot of the right pair: none skipped, none torn |
| `I2s.FrameRecovered` | `avb_soc.py:268-273` | 64 consecutive slots give back one latched pair: a zero, 24 bits MSB first, seven zeros, left then right |
| `I2s.PairsAreOffered` | `avb_soc.py:298-311` | over any run, strobe by strobe, the pair shown is the sample offered in that clock, left as left, or at an empty strobe the pair before again; the counter counts the empty strobes |
| `I2s.DacHearsOffered` | `avb_soc.py:292-334` | from the samples offered to the DAC: frame f on the wire carries, left and right, the sample offered at strobe f - 1, or what the frame before it carried |
| `Arbiter.TXFrameArbiter.Clock` | `aaf_packetizer.py:65-104` | one clock of grant, transfer, ready lines and timestamp latch on the whole state |
| `Arbiter.NothingLost` | `aaf_packetizer.py:65-104` | under any offers and back-pressure, the beats of a source at the output are those it handed over, in order |
| `Arbiter.FramesStayWhole` | `aaf_packetizer.py:65-104` | frames are never interleaved |
| `Arbiter.OneLatchPerFirmwareFrame` | `avb_soc.py:573-596` | the egress timestamp latch fires once per firmware frame of two or more beats and for nothing else |
| `Arbiter.FirmwareWaitsForOneFrame` | `aaf_packetizer.py:65-104` | while source 0 waits at most the one frame in flight can end, and an idle arbiter lets no other in |
| `Arbiter.IdleGrantsFirst` | `aaf_packetizer.py:91-99` | an idle arbiter grants the first source in list order that has something, at once |
| `Arbiter.GrantedFirmwareMoves` | `aaf_packetizer.py:65-104` | an idle arbiter grants source 0 at once, and it then moves as soon as the MAC is ready |
| `AafFrame.ByteOfWords` | `aaf_packetizer.py:364-388` | packing octets into little-endian words and reading them back |
| `AafFrame.SampleOfFrame` | `avtp_extractor.py:360-374` | a sample that straddles two words is read back big-endian, as packed |
| `AafFrame.DecodeInvertsFrame` | `avtp_extractor.py:304-400` | the listener's byte-level decode of a talker frame is its six blocks |
| `AafFrame.DecodeInvertsUntagged` | `avtp_extractor.py:304-400` | so it is when a bridge has taken the VLAN tag off, four octets earlier |
| `AafFrame.KeysOfFrame` | `avtp_extractor.py:219-230` | the match keys read from a talker frame are its binding, VLAN tag included |
| `AafFrame.KeysOfUntagged` | `avtp_extractor.py:219-230` | and without the VLAN tag: the AVTP EtherType does not pass for one |
| `Assembler.HostFramesBecomeBlocks` | `aaf_packetizer.py:187-224` | whatever was half assembled, n-channel host frames become one zero-padded block each, in order |
| `Assembler.TakeOneMore` | `firmware/main.c:951-984` | the blocks of a longer stream: one more exactly when a marker closes a frame |
| `Packetizer.ShiftAddIsMultiply` | `aaf_packetizer.py:107-112` | the shift-add product is x times 10^9 modulo 2^32 for every x |
| `Packetizer.AAFPacketizer.Ingress` | `aaf_packetizer.py:187-224` | assembler and block FIFO, with the simultaneous read and push, in one clock |
| `Packetizer.AAFPacketizer.PacedRead` | `aaf_packetizer.py:231-267` | one block or silence per strobe into the ping-pong buffer; halves swap after six |
| `Packetizer.AAFPacketizer.BuilderClock` | `aaf_packetizer.py:353-410` | one clock of the IDLE, BUILD, STREAM machine with its counters |
| `Packetizer.AAFPacketizer.Clock` | `aaf_packetizer.py:133-410` | one clock of the whole packetizer is the specified step on all registers |
| `TalkerRuns.CurByteIsFrameByte` | `aaf_packetizer.py:334-348` | during BUILD the selected octet is the octet of the frame under construction |
| `TalkerRuns.BuildStepKept` | `aaf_packetizer.py:366-388` | byte-per-clock building ends with exactly the words of the frame, padding included |
| `TalkerRuns.Conservation` | `aaf_packetizer.py:208-267` | at every clock: strobes = 6 (sent + skipped + in flight + requested) + slots filled = popped + underruns, and pushed = popped + queued |
| `TalkerRuns.NoTornPacket` | `aaf_packetizer.py:353-410` | at every clock the wire holds whole frames in sequence, each with six consecutive blocks of one half, groups missing only at counted overruns |
| `TalkerRuns.BuildOutrunsTheFeed` | `aaf_packetizer.py:364-388` | while a frame is built at most one later strobe has been taken, so its half is never refilled under it |
| `TalkerRuns.BlocksComeFromUsb` | `aaf_packetizer.py:187-224` | blocks handed out are the assembled USB blocks in order, silence at underruns only |
| `TalkerRuns.PopsExactly` | `aaf_packetizer.py:200-209` | a USB sample is popped exactly when the talker is enabled, one is offered and it does not close a block while 64 are queued |
| `TalkerRuns.DisabledIsSilent` | `aaf_packetizer.py:236-243` | while disabled the gateware talker takes no sample and keeps off the wire |
| `AafFirmware.BindingKeepsOctets` | `firmware/main.c:915-937` | the registers written for an identity stand for its octets, nothing truncated, and the tag for its priority and VLAN |
| `AafFirmware.PresentationTimesAgree` | `firmware/aaf.c:205-266` | presentation time in C arithmetic and in the gateware agree modulo 2^32 |
| `AafFirmware.AafState.TxPush` | `firmware/aaf.c:116-122` | pushing a block appends it to the queue while there is room in the ring |
| `AafFirmware.AafState.PopOrSilence` | `firmware/aaf.c:247-256` | the oldest queued block, or silence and a counted underrun |
| `AafFirmware.AafState.SendPacket` | `firmware/aaf.c:205-266` | one packet written in place is the reference frame of the identity, sequence number, time and next six blocks |
| `AafFirmware.PacketsDrainQueue` | `firmware/aaf.c:238-260` | packet after packet the queued blocks go out in order and to the last, then silence |
| `AafFirmware.UsbBridge.Take` | `firmware/main.c:966-983` | one USB sample: flush at a marker, fill the lane |
| `AafFirmware.UsbBridge.Drain` | `firmware/main.c:951-984` | draining at most 1024 samples pushes exactly the blocks the gateware assembler closes |
| `Extractor.AVTPSampleExtractor.CaptureBeat` | `avtp_extractor.py:173-196` | capture of a beat into the buffer and the header shadow |
| `Extractor.AVTPSampleExtractor.MatchPipeline` | `avtp_extractor.py:211-264` | the two registered match stages and the combinational match |
| `Extractor.AVTPSampleExtractor.ReplayClock` | `avtp_extractor.py:337-439` | one clock of PRIME, WARM, STREAM with synchronous read and FIFO writes |
| `Extractor.AVTPSampleExtractor.Clock` | `avtp_extractor.py:158-439` | one clock of the whole extractor is the specified step on all registers |
| `ListenerRuns.ReadIsSafe` | `avtp_extractor.py:158-187` | on every run from reset, the word the replay reads is the one that was there when the replayed frame ended; no later frame has overwritten it or is writing it, one beat per clock included |
| `ListenerRuns.ReplayIsDecode` | `avtp_extractor.py:337-439` | for every beat stream, runts and short frames included, the samples offered are the replays of exactly those hidden frames that ended more than 50 clocks after the one replayed before |
| `ListenerRuns.OwnSamplesExactly` | `avtp_extractor.py:158-187` | sample j of a replay depends on the frame alone if and only if its octets lie inside the frame, and is then its byte-level decode; the others are octets of earlier frames |
| `ListenerRuns.DiscardIffExtracted` | `avtp_extractor.py:284-302` | all frames hidden from the CPU have their own 48 samples extracted if and only if they end more than 50 clocks apart and have full size; then what is offered is their byte-level decode, in order |
| `ListenerRuns.FullFramesAreExtracted` | `avtp_extractor.py:405-416` | if the hidden frames have full size, none is missed, whatever the gaps and whatever else arrives |
| `ListenerRuns.HiddenExactly` | `avtp_extractor.py:211-302` | on every run a frame of nine words or more is hidden from the CPU if and only if the slot is enabled, octets 0 to 5 spell its address, the subtype octet is 2 and the eight octets four further on spell its stream id, all four octets later behind a VLAN tag |
| `ListenerRuns.TalkerIsOurs` | `avtp_extractor.py:219-256` | a talker frame, tagged or not, is one of those if and only if its destination and stream id are the slot's |
| `ListenerRuns.HiddenAreOurs` | `avtp_extractor.py:219-230` | if no frame has fewer than nine words, the hidden frames are exactly those, in order |
| `ListenerRuns.RuntFollowsOurs` | `avtp_extractor.py:189-196` | an input: a frame of one word after a frame of ours is hidden too, judged on the header left behind |
| `ListenerRuns.MissedExactlyWhenBusy` | `avtp_extractor.py:402-416` | a hidden frame reaches the replay machine two clocks later and is replayed if and only if the last replay began at least 50 clocks before |
| `ListenerRuns.StoredSamples` | `avtp_extractor.py:389-400` | each FIFO holds its channel of the decoded frames, complete and in order, when replays begin with room |
| `ListenerRuns.CountersTell` | `avtp_extractor.py:389-416` | the counters count the registered matches, replayed or not, and the blocks offered |
| `ListenerRuns.ShortFrameIsLost` | `avtp_extractor.py:405-416` | an input: of two matching frames back to back both are hidden, the second is replayed if and only if it has at least 51 words, and of each replay only the samples inside the frame are its own |
| `EndToEnd.TalkersAgree` | `firmware/aaf.c:205-266` | every gateware frame is octet for octet the firmware packet for the same binding, number, time and blocks |
| `EndToEnd.MixedTrafficConnects` | `avtp_extractor.py:219-230` | the hypothesis of the theorems below holds when the talker's frames are, among any other traffic without runts, the received frames with its keys |
| `EndToEnd.SamplesArrive` | `avtp_extractor.py:360-400` | for every run of talker and bound listener, whatever else the listener receives, the samples offered are those of the transmitted groups, every talker frame is hidden and none is missed |
| `EndToEnd.ChannelsArrive` | `avtp_extractor.py:389-400` | what the CPU popped and what is queued is, for channels 0 and 1, exactly that lane of the transmitted blocks |
| `EndToEnd.UsbReachesTheFifos` | `aaf_packetizer.py:187-267` | from USB to the listener's FIFOs: sample 6k + i of a channel is that lane of the assembled block that strobe i of the k-th transmitted group popped, or zero at a counted underrun; groups are missing only at counted overruns |
| `EndToEnd.CleanStreamArrives` | `aaf_packetizer.py:187-267` | without underruns and overruns the listener has, of channels 0 and 1, exactly those lanes of the assembled blocks, in order |
| `Aes3Line.FlagsArePatternChanges` | `rtl/_aes3_backup/aes3_tx.v:103-134` | the level changes listed for each preamble are those of its cell pattern |
| `Aes3Line.Payload` | `rtl/_aes3_backup/aes3_tx.v:165-181` | 28 bits: the audio, V and U zero, C, and a parity bit that makes the ones even |
| `Aes3Rx.AES3Rx.CollectPreamble` | `rtl/_aes3_backup/aes3_rx.v:300-330` | one interval inside a preamble, on FSM, frame counter and channel-status counter |
| `Aes3Rx.AES3Rx.DecodeBit` | `rtl/_aes3_backup/aes3_rx.v:333-368` | one interval inside a subframe, with every way of losing sync |
| `Aes3Rx.AES3Rx.Accumulate` | `rtl/_aes3_backup/aes3_rx.v:245-255` | the channel-status accumulator at the end of an A subframe |
| `Aes3Rx.AES3Rx.Judge` | `rtl/_aes3_backup/aes3_rx.v:257-269` | parity, lock counter, error counter and rate at the end of a subframe |
| `Aes3Rx.AES3Rx.Decode` | `rtl/_aes3_backup/aes3_rx.v:190-374` | lost signal, completed subframe and edge, in that priority, on all decoder registers |
| `Aes3Rx.AES3Rx.TrackCell` | `rtl/_aes3_backup/aes3_rx.v:103-120` | leaky minimum; the decay wins over a simultaneous snap |
| `Aes3Rx.AES3Rx.Measure` | `rtl/_aes3_backup/aes3_rx.v:79-92` | edge timer with glitch rejection and saturation |
| `Aes3Rx.AES3Rx.Clock` | `rtl/_aes3_backup/aes3_rx.v:28-376` | one clock of the whole receiver is the specified step on all registers, reset included |
| `Aes3Streams.PreambleLeadsToData` | `rtl/_aes3_backup/aes3_rx.v:296-330` | from HUNT or a misaligned DATA, each preamble leads to the first bit boundary with the right channel and counters |
| `Aes3Streams.BitsShiftIn` | `rtl/_aes3_backup/aes3_rx.v:347-360` | biphase-mark bits shift in one by one; the last is complete at the next preamble's first edge |
| `Aes3Streams.SubframeDecodes` | `rtl/_aes3_backup/aes3_rx.v:226-368` | one subframe in step is decoded into exactly one report |
| `Aes3Streams.DataNeverSyncs` | `rtl/_aes3_backup/aes3_rx.v:300-368` | SHORT and LONG intervals lead out of the preamble state and never into it |
| `Aes3Streams.AnyStateBecomesReady` | `rtl/_aes3_backup/aes3_rx.v:190-374` | one complete subframe brings every decoder state into step |
| `Aes3Streams.SelfStabilises` | `rtl/_aes3_backup/aes3_rx.v:190-374` | from every state, after one subframe, exactly the later subframes are reported: the 24 audio bits on audio_sub at each pulse, all 28 bits and the channel |
| `Aes3Streams.OnlyWholeSubframes` | `rtl/_aes3_backup/aes3_rx.v:282-374` | over any intervals at all nothing is made up: what is reported is the whole, violation-free subframe that has just ended, preamble included |
| `Aes3Streams.ViolationCosts` | `rtl/_aes3_backup/aes3_rx.v:330-374` | a violation inside a subframe ends it and costs eight points of lock, and nothing else does |
| `Aes3Streams.BlocksDecode` | `rtl/_aes3_backup/aes3_rx.v:245-255` | from an aligned block start every frame gives its pair and every 192 frames one status block, bit for bit, for any number of blocks |
| `Aes3Streams.GoodParityLocks` | `rtl/_aes3_backup/aes3_rx.v:257-266` | n good subframes move lock and error counters by n; 34 always lock |
| `Aes3Streams.BadParityUnlocks` | `rtl/_aes3_backup/aes3_rx.v:257-266` | n subframes with odd parity cost eight points each, count n errors up to 15, and unlock when the points run out |
| `Aes3Cells.WidthKept` | `rtl/_aes3_backup/aes3_rx.v:106-120` | the tracked width is 8, or 9 since no longer than the last eight-clock interval |
| `Aes3Cells.RunsClassify` | `rtl/_aes3_backup/aes3_rx.v:130-148` | runs of one, two and three cells are told apart at widths 8 and 9 |
| `Aes3Cells.IntervalsToldApart` | `rtl/_aes3_backup/aes3_rx.v:130-148` | where SHORT, LONG and VLONG end, at the widths of both rates |
| `Aes3Cells.CellsPass` | `rtl/_aes3_backup/aes3_rx.v:75-374` | for any stream of 8- and 9-clock cells the receiver's clocks refine the decoder's cells |
| `Aes3Cells.PulseMeasured` | `rtl/_aes3_backup/aes3_rx.v:75-104` | from every state: a level held for n clocks is measured as n, at most 128, if and only if n is three or more |
| `Aes3Cells.WidthMoves` | `rtl/_aes3_backup/aes3_rx.v:106-120` | the tracked width at any cell length: decay, snap and which of them wins |
| `Aes3Cells.NeverChained` | `rtl/_aes3_backup/aes3_rx.v:271-279` | on every run no interval waits in the clock in which a subframe is completed, so the chained transition is never taken |
| `Aes3Cells.RateTold` | `rtl/_aes3_backup/aes3_rx.v:268-269` | each subframe tells the rate of the tracked width: four or five clocks 96 kHz, six to nine 48 kHz |
| `Aes3Cells.SilenceUnlocks` | `rtl/_aes3_backup/aes3_rx.v:213-220` | from every state: 129 clocks without an edge end lock and reports until the next edge |
| `Aes3Timing.ChannelARefreshes` | `rtl/_aes3_backup/aes3_tx.v:119-121` | every A preamble brings an eight-clock interval, because its two single cells cannot both last nine |
| `Aes3Timing.ReceiverLocksOn` | `rtl/_aes3_backup/aes3_rx.v:28-376` | in clocks: from a settled cell width, anything in the decoder and either level, after one subframe exactly the later ones are reported; the tracked width never leaves {8, 9} |
| `Aes3Timing.ReceiverLocks` | `rtl/_aes3_backup/aes3_rx.v:257-266` | and it locks: 34 subframes with even parity are enough, whatever its counters held |
| `Aes3Timing.HuntingHearsAll` | `rtl/_aes3_backup/aes3_rx.v:282-294` | a hunting decoder, as reset leaves it, reports the first subframe too |
| `Aes3Timing.LocksAtThirtyFour` | `rtl/_aes3_backup/aes3_rx.v:257-266` | from reset a clean stream locks with its 34th subframe, neither before nor after |
| `Aes3Settling.WayKept` | `rtl/_aes3_backup/aes3_rx.v:106-120` | from any width: climbing by decay from below, snapped down from above, late by one interval when a decay coincides with the snap |
| `Aes3Settling.AnyReceiverLocksOn` | `rtl/_aes3_backup/aes3_rx.v:28-376` | in clocks, from any state of the core at all, tracked width and pending interval included: after 64 subframes the width has settled, and one subframe later exactly the later ones are reported |
| `Aes3Tx.IncrementIsNominal` | `rtl/_aes3_backup/aes3_tx.v:58` | the accumulator increment for 48 kHz from 50 MHz |
| `Aes3Tx.AES3Tx.Encode` | `rtl/_aes3_backup/aes3_tx.v:192-250` | one symbol: preamble level or biphase-mark cell, and the next position |
| `Aes3Tx.AES3Tx.BufferSamples` | `rtl/_aes3_backup/aes3_tx.v:136-159` | sample buffer; the clear wins over a simultaneous load |
| `Aes3Tx.AES3Tx.Clock` | `rtl/_aes3_backup/aes3_tx.v:14-252` | one clock of the whole transmitter is the specified step on all registers, reset included |
| `Aes3Sent.FormatOnRuns` | `rtl/_aes3_backup/aes3_tx.v:192-250` | at every clock of every run the line carries complete subframes, then the current one as far as it got |
| `Aes3Sent.OrderOnRuns` | `rtl/_aes3_backup/aes3_tx.v:126-134` | preambles follow the block structure for ever |
| `Aes3Sent.LengthsAreTame` | `rtl/_aes3_backup/aes3_tx.v:56-69` | cells last eight or nine clocks and no two neighbours nine |
| `Aes3Sent.ThreeCells` | `rtl/_aes3_backup/aes3_tx.v:56-69` | two cells last 16 or 17 clocks, three 24 or 25 |
| `Aes3Sent.CellsSent` | `rtl/_aes3_backup/aes3_tx.v:56-69` | n cells in clocks: the line levels are the wave of the recorded level changes |
| `Aes3Sent.SubframeCarriesSample` | `rtl/_aes3_backup/aes3_tx.v:161-181` | an undisturbed subframe carries its sample, its C bit and even parity |
| `Aes3Sent.SubframeCarriesLastLoad` | `rtl/_aes3_backup/aes3_tx.v:136-181` | the A subframe carries the left and the B subframe the right sample of the pair loaded last |
| `Aes3Sent.ReadyExactly` | `rtl/_aes3_backup/aes3_tx.v:136-159` | on every run audio_ready says, one clock late, whether no pair was loaded since the last A subframe ended |
| `Aes3Sent.PromptLoadSplitsPair` | `rtl/_aes3_backup/aes3_tx.v:148-152` | an input: a pair loaded as soon as audio_ready rises goes out as its right sample beside the left sample of the pair before it |
| `Aes3Sent.LoadMidSubframe` | `rtl/_aes3_backup/aes3_tx.v:136-181` | after a load inside a subframe: the new sample's payload if and only if the bits already sent agree with it, even parity if and only if they have the same parity |
| `Aes3Sent.LoadTearsSubframe` | `rtl/_aes3_backup/aes3_tx.v:136-181` | an instance: a load while bit 0 is sent makes the parity odd |
| `Aes3Sent.StatusOnRuns` | `rtl/_aes3_backup/aes3_tx.v:166` | with a constant channel status every C bit is the bit of its frame |
| `Aes3Link.CoreSeesDelayed` | `rtl/_aes3_backup/aes3_rx.v:52-66` | the three-stage synchroniser is a delay of three clocks |
| `Aes3Link.AudioCrossesTheWire` | `rtl/_aes3_backup/aes3_rx.v:28-376` | transmitter wired to a receiver of settled width on a quiet line: for every number of subframes, everything after the first is reported exactly as sampled |
| `Aes3Link.AnyReceiverHears` | `rtl/_aes3_backup/aes3_rx.v:28-376` | transmitter wired to a receiver in any state, synchroniser included: for every m and every j from 65 on, after the first j subframes exactly the other m - j are reported, as sampled |
| `Aes3Link.BlocksCrossTheWire` | `rtl/_aes3_backup/aes3_rx.v:320-329` | when the first subframe heard was the last of a block, every later pair and status block arrives, in order, for any number of blocks |
| `Aes3Link.StatusCrossesTheWire` | `rtl/_aes3_backup/aes3_tx.v:166` | those blocks are the transmitter's constant channel status, bit for bit |
| `Aes3Link.ResetLeadsToStart` | `rtl/_aes3_backup/aes3_tx.v:59-68` | nine clocks after reset of both ends the first subframe of a block begins on a quiet line |
| `Aes3Link.AllHeardFromReset` | `rtl/_aes3_backup/aes3_rx.v:28-376` | from reset of both ends every subframe is reported, the very first included, whatever is loaded when |
| `Aes3Link.BlocksFromReset` | `rtl/_aes3_backup/aes3_rx.v:245-255` | from reset every pair and every channel-status block arrives, in order, for any number of blocks |
| `Aes3Link.StatusFromReset` | `rtl/_aes3_backup/aes3_tx.v:166` | from reset with a constant channel status, every 192 frames raise exactly one status block, and it is that status, bit for bit |
| `Mrpdu.VectorsParse` | `firmware/srp.c:429-617` | an encoded attribute list is visited vector by vector, up to the first zero header |
| `Mrpdu.ParserVisitsFirstValues` | `firmware/srp.c:390-621` | for every PDU without a zero vector header and any padding the parser visits exactly the FirstValue of each vector, in order |
| `Mrpdu.EmptyVectorHidesTheRest` | `firmware/srp.c:433-435` | for every PDU the parser visits the FirstValues of each list up to its first zero header; these are all FirstValues if and only if no header in the PDU is zero |
| `Mrpdu.TruncatedFrame` | `firmware/srp.c:412-427` | a frame cut short at any octet: the parser takes exactly the messages that have come whole |
| `Mrpdu.PackedIsEnough` | `firmware/srp.c:603-613` | the octets skipped as packed events are just enough for three, and for listeners four, events each |
| `Registrar.EvictedIsOldest` | `firmware/srp.c:547-564` | a stream that loses its entry was the oldest of eight valid ones |
| `Registrar.InvOnRuns` | `firmware/srp.c:547-577` | what every run of advertisements and polls keeps: no duplicates, entries current, live streams crowded out only by eight others |
| `Registrar.RegistrarRefinesMap` | `firmware/srp.c:636-648` | a lookup finds the last advertisement of a live stream unless eight others were seen at or after it, and nothing else |
| `Srp.AdvertRoundTrip` | `firmware/srp.c:202-256` | the 25 octets of a TalkerAdvertise read back field by field |
| `Srp.AdvertLayout` | `firmware/srp.c:557-573` | each field of a TalkerAdvertise at its octets, and the octets again from the fields |
| `Srp.DeclarationIsValid` | `firmware/srp.c:315-384` | every combination of declarations is a well-formed PDU with the declared FirstValues |
| `Srp.DeclarationsParseBack` | `firmware/srp.c:390-621` | a peer that receives any such frame takes over the declared domain, registers the declared talker, takes it for its own listener if that wants the stream, and counts the listener |
| `Srp.AnyFrameTaken` | `firmware/srp.c:390-621` | any octets at all: not MSRP, nothing changes; else every attribute is counted and taken by its type, those too short skipped, the last domain and every advertisement taken over |
| `Srp.NewTwiceThenJoined` | `firmware/srp.c:315-384` | over any run of transmissions: the domain heard or the default one, talker and listener as enabled, each attribute new in its first two transmissions and JoinIn from then on |
| `Srp.EventsOnTheWire` | `firmware/srp.c:154-309` | the octets of a transmission: addresses, LeaveAll bit, and the packed events a peer unpacks |
| `Srp.SrpState.FindSlot` | `firmware/srp.c:548-564` | one pass over the table: match, else first free entry, else the oldest |
| `Srp.SrpState.Register` | `firmware/srp.c:547-577` | upsert in place |
| `Srp.SrpState.FindTalker` | `firmware/srp.c:636-648` | lookup over valid entries |
| `Srp.SrpState.AgeTalkers` | `firmware/srp.c:781-790` | ageing in place with the unsigned difference and its wrap guard |
| `Srp.SrpState.HandleVector` | `firmware/srp.c:444-604` | what one vector does, type by type and length by length |
| `Srp.SrpState.HandleList` | `firmware/srp.c:429-617` | the inner loop: memory safe, terminating, equal to the fold over the vectors visited |
| `Srp.SrpState.ProcessRx` | `firmware/srp.c:390-621` | a received frame of any octets and length: checks, both loops, whole effect on the state |
| `Srp.SrpState.EmitDomain` | `firmware/srp.c:154-199` | Domain message in place, with the list length filled in afterwards |
| `Srp.SrpState.EmitTalkerAdv` | `firmware/srp.c:202-256` | TalkerAdvertise message in place |
| `Srp.SrpState.EmitListener` | `firmware/srp.c:259-309` | Listener message in place, with its four-packed events |
| `Srp.SrpState.SendDeclarations` | `firmware/srp.c:315-384` | one transmission is the padded frame of everything declared, with the new-attribute counters |
| `Acmp.AvdeccState.HandleConnectRx` | `firmware/avdecc.c:664-756` | unknown listener, deferred connect, missing talker, fast connect: state and messages of each |
| `Acmp.AvdeccState.HandleConnectTxResponse` | `firmware/avdecc.c:611-662` | the first resolve that awaits the sequence id is bound on success, answered and cleared |
| `Acmp.AvdeccState.PollResolves` | `firmware/avdecc.c:2384-2401` | time-outs in listener order, with the unsigned age and its wrap guard |
| `Acmp.AvdeccState.HandleDisconnectRx` | `firmware/avdecc.c:758-770` | a disconnect leaves pending resolves alone |
| `AcmpRuns.BooksBalance` | `firmware/avdecc.c:576-716` | in every run, as multisets of controller, sequence id and listener: accepted = answered + superseded + pending, so nothing is answered twice or made up |
| `AcmpRuns.ConnectIsAnsweredOrAsked` | `firmware/avdecc.c:664-756` | a connect command causes one message: a query if and only if the listener exists and only the talker is given, else the response with its status, and a binding exactly on success |
| `AcmpRuns.DisconnectIsAnswered` | `firmware/avdecc.c:758-770` | a disconnect is answered and frees its listener and no other; pending connections stay |
| `AcmpRuns.QueriesOnTheWire` | `firmware/avdecc.c:440-464` | in every run the queries sent ask the talkers of the accepted commands under serial numbers that grow, and each pending connection waits for the last one of its listener |
| `AcmpRuns.ResponseSettles` | `firmware/avdecc.c:611-662` | a talker's response settles at most one connection, the one it answers |
| `AcmpRuns.AnswerBelongsToQuery` | `firmware/avdecc.c:611-662` | while the sequence counter has not wrapped: a response makes the listener act if and only if it carries the sequence id of a query on the wire whose answer is awaited; the controller of that command is answered, its listener bound on success only, and no other query carried the id |
| `AcmpRuns.PollExactly` | `firmware/avdecc.c:2384-2401` | a poll clears exactly the connections pending for 1500 ms or more, with status 7 to their controllers, in listener order |
| `AcmpRuns.PollLeavesNothingOld` | `firmware/avdecc.c:2384-2401` | nothing pending survives a poll at age 1500 ms or more |
| `AcmpRuns.EverythingSettles` | `firmware/avdecc.c:2384-2401` | after a poll 1500 ms or more after every command whose answer is awaited, every accepted command has been answered or superseded |
| `Gptp.GptpFilters.Insert` | `firmware/gptp.c:389-394` | one pass of the insertion sort in place: sorted prefix, same elements, rest untouched |
| `Gptp.GptpFilters.FilterOffset` | `firmware/gptp.c:382-395` | the servo gets the floor(n/2)-th smallest of the last n <= 5 raw offsets |
| `Gptp.WindowOfHistory` | `firmware/gptp.c:382-384` | over any run of offsets, the window is the last five of all of them |
| `Gptp.KthUnique` | `firmware/gptp.c:395` | there is only one such value |
| `Gptp.MajorityBoundsMedian` | `firmware/gptp.c:377-381` | two arbitrary outliers in five cannot move it out of the range of the others |
| `Gptp.MajorityIsMedian` | `firmware/gptp.c:377-381` | three equal ones can: they are the median |
| `Gptp.SameCounts` | `firmware/gptp.c:386-395` | rank counts do not depend on the order of the buffer |
| `Gptp.GptpFilters.UpdateDelay` | `firmware/gptp.c:469-516` | rate ratio, delay and mean in C's truncating arithmetic, with the outlier count |
| `Gptp.DelayMeasuresPath` | `firmware/gptp.c:494-500` | with a peer clock of any offset, fast or slow by less than 10 ppm, the delay is the mean of the two directions to within 1.5 ns, however long the peer took to answer |
| `Gptp.DelayIsExact` | `firmware/gptp.c:494-500` | at equal rates it is exactly that mean, rounded down |
| `Gptp.OutliersLeaveNoTrace` | `firmware/gptp.c:509-516` | the mean after any measurements is that of the plausible ones alone |
| `Gptp.RatioFollows` | `firmware/gptp.c:473-488` | the ratio moves an eighth of the way to a measured gain below 10,000 parts in 10^9 and stays otherwise, the gain being cut to 32 bits |
| `Gptp.RatioSettles` | `firmware/gptp.c:473-488` | under a constant gain, in intervals of any length, it approaches without overshoot and is within seven parts after 96 exchanges |
| `Gptp.GarbageTakenExactly` | `firmware/gptp.c:480-486` | an implausible gain is dropped if and only if it is not within 10,000 of a multiple of 2^32 other than 0 |
| `Gptp.JumpPassesForEqualRates` | `firmware/gptp.c:480-486` | an input: a jump of 4.294967296 s in a second passes for equal rates |
| `Gptp.MeanStaysPlausible` | `firmware/gptp.c:509-516` | over any measurements the mean stays in [0, 20000) |
| `Gptp.NeverOvershoots` | `firmware/gptp.c:510-513` | under a constant delay the mean approaches from its side and never passes it |
| `Gptp.MeanSettles` | `firmware/gptp.c:510-513` | it settles within 104 steps: at the delay from above, at most seven below it otherwise |

## Left out

- LiteEth MAC, timestamp unit, SRAM writer, clock domain crossings, PLL, delay lines and CSR plumbing: library or vendor primitives that are not part of this model; their signals are inputs.
- `crf_extractor.py`: the same matching pattern as the AAF extractor without a replay machine.
- `avtp_stream_filter.py`: superseded by the extractor.
- Extractor configurations with more than one slot: `ex_slot` takes the previous `ex_match_slot`, so only the deployed single slot is modelled.
- The diagnostic CSRs of the extractor other than its two counters: they only copy.
- AES3 with `USE_EXT_TICK`, at 96 kHz or at other clocks, and a receiver in a clock of its own: both ends share one 50 MHz clock in the timing theorems; the cell-level theorems allow any tame mixture of eight- and nine-clock cells.
- Aes3Timing.ReceiverLocksOn: starts from a settled cell width (8, or 9 for at most 500 clocks) and a line quiet for eight clocks or just reset; `Aes3Settling.AnyReceiverLocksOn` has no such hypothesis and needs 64 subframes more.
- Aes3Link.AudioCrossesTheWire: requires that too; `Aes3Link.AnyReceiverHears` does not.
- Aes3Link.BlocksCrossTheWire: requires the transmitter at the last subframe of a block; `Aes3Link.BlocksFromReset` starts from reset.
- AafFirmware.AafState.TxPush: states the queue only while the ring has room, because the code does not check its occupancy.
- EndToEnd.SamplesArrive: the frames the listener's match logic takes are the talker's; a listener that also takes runts or another talker's frames with the same keys replays those too, as `ListenerRuns.ReplayIsDecode` says.
- ListenerRuns.StoredSamples: completeness per channel assumes six free places when a replay begins; the FIFO drops samples silently otherwise.
- Mcr.McrState.Update: requires offsets of at most 2^61 ns, where the signed 64-bit arithmetic of the source cannot overflow.
- Mcr.McrState.PumpHw: requires the same of the offsets of the pairs it drains.
- The servo's statistics window (`delta_max_abs`, `delta_sum_abs`, `delta_window_count`) and the checks and diagnostics of `mcr_process_rx` before its sample: counters and field reads.
- Gptp.GptpFilters.UpdateDelay: timestamps are unbounded integers; overflow of the 64-bit product of a rate difference and 10^9 is not modelled.
- Gptp.GptpFilters.FilterOffset: takes the raw offset as its input; the conversion of received timestamps to it is not modelled.
- The gPTP servo, its coarse step and its lock counter, Pdelay sequencing and message parsing: control-loop behaviour without a plant model.
- MVRP: one constant frame.
- Srp.SrpState.ProcessRx: one clock reading serves the whole frame; the log lines, their rate limits and the observer callback are left out.
- `srp_poll` beyond the ageing of the table: periodic timers; enabling and disabling of talker and listener are field writes.
- Registrar.RegistrarRefinesMap: the millisecond clock does not run backwards or wrap within a run; eviction is excluded by fewer than eight other streams, and with eight or more it depends on their order.
- AcmpRuns.AnswerBelongsToQuery: holds while fewer than 65,536 sequence ids have been taken; after a wrap two pending queries could share one.
- ACMP frame layout, talker side, GET_RX_STATE, unsolicited notifications and the data-flow watchdog except for the sequence ids it takes: constant layouts and field copies.
- AEM descriptors, ADP, UART commands, bench counters, PHY bring-up: tables and peripherals.
- Control-theoretic convergence of the PI loops: it needs a plant model the repository does not contain.
