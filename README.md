# I2C on the eTPU: a verified model

The I2C-eTPU software turns four channels of an NXP eTPU (enhanced Time
Processing Unit) into an I2C master or an I2C slave. The eTPU engine runs
event-driven threads over a channel frame: SCL_out, SCL_in, SDA_out and SDA_in.
It bit-bangs the bus through match registers, which drive a pin at a given
TCR1 time, and through edge detection. Host-side C code configures the frame
and reads results back through the parameter RAM. This project models four
parts:

- the slave engine, `etec_i2c_slave.c`;
- the master engine, `etec_i2c_master.c`;
- the two host interfaces, `etpu_i2c_master.c` and `etpu_i2c_slave.c`.

What is proved, in terms of UM10204 (the NXP I2C-bus specification and user
manual):

- the slave recognises a START and a repeated START, answers exactly the
  headers its masked address or an accepted general call selects, stores the
  bytes of a write in order (counting and flagging those past its buffer),
  sends its read buffer MSB first (0x00 with BUFFER_OVERFLOW past its end),
  stops at the master's NACK and ends at a STOP;
- the master sends a START and the header of its first command, each later
  command's header after a repeated START with no STOP in between, its data
  bytes MSB first, assembles and stores each byte it reads with ACK or NACK
  by the remaining count, and ends the transfer with a STOP that frees it and
  interrupts the host;
- the master's clock-stretch adjustment never leaves the observed SCL edge
  more than tr_max past the reference it times the next cycle from;
- on both sides, no thread writes the host's configuration and error flags
  are sticky until latched; the host calls write exactly the frame fields the
  source writes, and reject what it rejects.

The proofs are about the order and levels of bus events, not about time:
the electrical timing of UM10204 (tSU;STA, tHD;DAT and so on) is only carried
as the times the match registers are given, and multi-master arbitration and
concurrency between the host and the eTPU are outside the model (see
"Left out"). The master's STOP and repeated START are proved from the ACK slot
of the last byte of a command on; the slave's entry tables are composed by
hand rather than modelled.

Layout:

- `common.dfy` (`I2CCommon`) holds what both engines share:
  - the constants of `etpu_i2c_common.h`;
  - the 24-bit working register and its shifts;
  - the pin actions of a match register;
  - loads and stores in the eTPU data RAM;
  - the proofs that bits go out and come in most significant bit first.
- `master_engine.dfy` (`MasterEngine`) models the master's frame.
  - Each thread is a pure step function on a `Frame` value.
  - The class `I2CMaster` holds the frame as fields: records plus the data RAM as an `array<bv8>`.
  - One method per thread updates those fields in place. Each method is proved to end in the state its step function gives.
  - `MasterStep` is the entry table: it says which thread an event runs.
- `master_props.dfy` (`MasterProperties`) covers runs of events. It proves:
  - the START and header bits;
  - the data bytes written and read;
  - the ACK and NACK;
  - the busy and error-flag invariants.
- `slave_engine.dfy` (`SlaveEngine`) and `slave_props.dfy` (`SlaveProperties`) do the same for the slave:
  - idle detection;
  - START, repeated START and STOP;
  - header matching, writes and reads with overflow;
  - data-wait mode;
  - sticky error flags.
- `host_common.dfy`, `master_api.dfy` and `slave_api.dfy` model the host calls, in the modules `HostCommon`, `MasterApi` and `SlaveApi`:
  - each call takes the engine object and writes or reads its frame fields;
  - a host service request is a pending-request flag that the thread clears.

Times are 24-bit TCR1 values with explicit wrap-around (`After`). The working
register is a `bv24`, and error flags are `bv8`. Host-side integer arithmetic
is unsigned 32-bit, written with explicit `% 2^32`.

Where the comments and the code differ, the model follows the code. For
example, after a NACK on a read, an SCL edge can break the watch for STOP. The
STOP_FAILED interrupt is then raised on the SDA_in channel. A comment in the
code says SCL_in, but the channel is switched just before the interrupt is set
(`etpu/_etpu_set/etec_i2c_slave.c:387-395`).

## Model

| member | source | states |
|---|---|---|
| I2CCommon.Store | etpu/_etpu_set/etec_i2c_slave.c:357 | a store through a pointer changes that one byte of the data RAM and no other, and keeps its length |
| I2CCommon.StoreAllLoads | etpu/_etpu_set/etec_i2c_slave.c:354-363 | storing a run of bytes leaves each at its address, in order, and every other address untouched |
| I2CCommon.StoreAllSnoc | etpu/_etpu_set/etec_i2c_slave.c:357 | storing one more byte after a run, through the incremented pointer, is storing the longer run |
| I2CCommon.ShiftInByte | etpu/_etpu_set/etec_i2c_master.c:268-275 | eight SDA samples shifted into the working register, MSB first, leave that byte in its low 8 bits (UM10204 section 3.1.5) |
| I2CCommon.ShiftInByteExact | etpu/_etpu_set/etec_i2c_slave.c:306-311 | the eight bits of a byte shifted into a cleared register leave exactly the byte, nothing above bit 7 |
| I2CCommon.ShiftInAllAppend | etpu/_etpu_set/etec_i2c_slave.c:306-311 | shifting in two runs of bits is shifting in their concatenation |
| I2CCommon.HeaderBitsOut | etpu/_etpu_set/etec_i2c_master.c:159-160 | a header loaded into bits 23..16 goes out as its eight bits, most significant first, over eight shift steps |
| I2CCommon.MsbBitsByte | etpu/_etpu_set/etec_i2c_master.c:258-263 | the carries of eight one-place shifts of a byte are its bits MSB first |
| I2CCommon.ShiftOutAllAt | etpu/_etpu_set/etec_i2c_master.c:258-263 | the i-th level driven is bit 23 of the register after i shifts |
| I2CCommon.WithFlagKeeps | etpu/_etpu_set/etec_i2c_slave.c:359 | OR-ing in an error flag keeps every flag already set |
| I2CCommon.WithFlagTwice | etpu/_etpu_set/etec_i2c_slave.c:359 | setting the same error flag twice is setting it once |
| I2CCommon.KeepsFlagsTrans | etpu/_etpu_set/etec_i2c_slave.c:359 | flags kept across two steps are kept across both |
| HostCommon.Tcr1Freq | etpu/i2c/etpu_i2c_master.c:39-56 | channels 0..31 of eTPU A/B use engine A's TCR1, higher ones engine B's, eTPU C its own |
| HostCommon.ValidChannelOneEngine | etpu/i2c/etpu_i2c_master.c:34-35 | the channel check accepts exactly the base channels whose four channels lie in one engine (0..31 or 64..95) |
| HostCommon.RamOffset | etpu/i2c/etpu_i2c_master.c:236 | a buffer pointer written to the frame is masked into the 16 KiB data RAM window |
| HostCommon.RamOffsetOfPointer | etpu/i2c/etpu_i2c_master.c:236 | a pointer into a data RAM aligned to 16 KiB is written as its offset in that RAM |
| HostCommon.TickCountRoundsDown | etpu/i2c/etpu_i2c_master.c:186-194 | without 32-bit overflow, ns-to-ticks conversion rounds MHz times ns down to whole ticks (within one tick) |
| HostCommon.TickCountMonotone | etpu/i2c/etpu_i2c_master.c:186-194 | without overflow, a longer time never converts to fewer ticks |
| MasterApi.DefaultTicks | etpu/i2c/etpu_i2c_master.c:93-111 | tLOW = tHIGH and they add up to the bit time or one less; tBUF, tSU;STA, tSU;STO equal tLOW; tHD;DAT is a tenth of tLOW, tr_max a tenth of the bit, rounded down |
| MasterApi.WriteHeader | etpu/i2c/etpu_i2c_master.c:235 | the header of `transmit` keeps the address bits and has R/W = 0 (UM10204 section 3.1.10) |
| MasterApi.ReadHeader | etpu/i2c/etpu_i2c_master.c:283 | the header of `receive` keeps the address bits and has R/W = 1 |
| MasterApi.WriteCommand | etpu/_etpu_set/etec_i2c_master.h:144-149 | writing command record i changes record i to the new command and no other |
| MasterApi.TransferResult | etpu/i2c/etpu_i2c_master.c:211-231 | a transfer call succeeds iff channel and arguments are valid and no transfer is in progress; NOT_READY iff the arguments are valid but one is |
| MasterApi.Init | etpu/i2c/etpu_i2c_master.c:21-156 | ERROR_VALUE (frame untouched) on a bad channel or priority; otherwise a cleared frame with the default timing of the bit rate and the command list |
| MasterApi.SetTiming | etpu/i2c/etpu_i2c_master.c:158-197 | every timing parameter becomes its time in ns converted to 24-bit ticks; nothing else changes |
| MasterApi.StartCommands | etpu/i2c/etpu_i2c_master.c:235-242 | the command list, count and start request are written and nothing else |
| MasterApi.Transmit | etpu/i2c/etpu_i2c_master.c:199-244 | NOT_READY or ERROR_VALUE leave the frame untouched; success writes one write command to the address with the masked buffer, count 1 and the start request |
| MasterApi.Receive | etpu/i2c/etpu_i2c_master.c:247-292 | the same as `Transmit` with a read header |
| MasterApi.CombinedTransfer | etpu/i2c/etpu_i2c_master.c:295-348 | the two commands in order with their headers verbatim, count 2, start request; refused as `Transmit` is |
| MasterApi.RawCount | etpu/i2c/etpu_i2c_master.c:383 | the count stored in the 8-bit `_cmd_cnt` is below 256 and equals the argument when that fits |
| MasterApi.RawTransfer | etpu/i2c/etpu_i2c_master.c:350-387 | the command list and the count's low 8 bits are written with the start request; refused when the list is null, the count 0 or a transfer in progress |
| MasterApi.RawCountWraps | etpu/i2c/etpu_i2c_master.c:362-383 | 256 commands pass the check but the frame holds count 0, so the master stops after the first command where 256 would go on |
| MasterApi.RawTransferChecked | etpu/i2c/etpu_i2c_master.c:350-387 | the corrected call refuses counts of 256 and more, so an accepted count reaches the frame exactly |
| MasterApi.LatchClearErrorFlags | etpu/i2c/etpu_i2c_master.c:390-408 | issues the latch request and changes nothing else |
| MasterApi.GetRunningErrorFlags | etpu/i2c/etpu_i2c_master.c:409-421 | returns the running error flags |
| MasterApi.ClearRunningErrorFlags | etpu/i2c/etpu_i2c_master.c:422-431 | zeroes the running flags, keeps the latched ones |
| MasterApi.GetLatchedErrorFlags | etpu/i2c/etpu_i2c_master.c:432-444 | returns the latched error flags |
| MasterApi.ClearLatchedErrorFlags | etpu/i2c/etpu_i2c_master.c:445-454 | zeroes the latched flags, keeps the running ones |
| MasterEngine.Resync | etpu/_etpu_set/etec_i2c_master.c:199-200 | after the adjustment the observed SCL rise is at most tr_max past the reference (unsigned 24-bit difference); the expected edge is kept whenever the rise is within tr_max after it, otherwise the reference moves to the rise: after a stretched clock, and also after an edge seen before the prediction, since the difference wraps (UM10204 section 3.1.9) |
| MasterEngine.EarlyEdgeResyncs | etpu/_etpu_set/etec_i2c_master.c:199-200 | a rise seen d ticks before the expected edge also moves the reference to it, for d and tr_max below half the TCR1 range, because the unsigned difference wraps past tr_max |
| MasterEngine.ClockCycle | etpu/_etpu_set/etec_i2c_master.c:250-256 | SCL falls tHIGH after the reference and rises tLOW later, which becomes the next expected edge |
| MasterEngine.LoadCommand | etpu/_etpu_set/etec_i2c_master.c:155-165 | the command's header goes into bits 23..16 with 8 bits to send as a write; buffer, size, direction and remaining count come from the command |
| MasterEngine.InitStep | etpu/_etpu_set/etec_i2c_master.c:53-116 | matches disarmed, SCL_out handling matches, SCL_in off, both outputs released |
| MasterEngine.ShutdownStep | etpu/_etpu_set/etec_i2c_master.c:119-124 | event handling off, both outputs released, state kept |
| MasterEngine.LatchAndClearStep | etpu/_etpu_set/etec_i2c_master.c:127-131 | latched := running flags, running := 0 |
| MasterEngine.StartTransferStep | etpu/_etpu_set/etec_i2c_master.c:136-185 | while busy only BUSY and the interrupt are added; otherwise in_use, count 0, the first command loaded and the START scheduled tBUF later |
| MasterEngine.BeginAckSlot | etpu/_etpu_set/etec_i2c_master.c:206-245 | after 8 bits: a write releases SDA for the slave's ACK; a read samples the last bit and drives ACK while bytes remain, NACK after the last (UM10204 section 3.1.6) |
| MasterEngine.NextBit | etpu/_etpu_set/etec_i2c_master.c:246-277 | a write drives the carry of a one-place shift; a read shifts the SDA sample into the LSB |
| MasterEngine.PulseClockStep | etpu/_etpu_set/etec_i2c_master.c:194-278 | resync, next SCL cycle, then a data bit or the start of the ACK slot |
| MasterEngine.PulseClockIgnoreStep | etpu/_etpu_set/etec_i2c_master.c:282-293 | only the match ending a START begins the first clock cycle; any other is ignored |
| MasterEngine.StoreReceived | etpu/_etpu_set/etec_i2c_master.c:328-330 | the byte read is stored at the buffer pointer, which moves past it |
| MasterEngine.ProcessAckStep | etpu/_etpu_set/etec_i2c_master.c:302-332 | a checked ACK that reads high sets ACK_FAILED and zeroes the remaining count; a read stores its byte; the link to Step2 is raised |
| MasterEngine.StartNextByte | etpu/_etpu_set/etec_i2c_master.c:347-382 | one byte fewer remains, 7 bits to clock, a write drives bit 7 of the next buffer byte, a read releases SDA |
| MasterEngine.StartNextCommand | etpu/_etpu_set/etec_i2c_master.c:383-417 | the next command is loaded, SDA released and the repeated-START threads selected |
| MasterEngine.PrepareStop | etpu/_etpu_set/etec_i2c_master.c:418-439 | SDA pulled low for the STOP, the STOP threads selected, the sent count incremented |
| MasterEngine.ContinueAfterAck | etpu/_etpu_set/etec_i2c_master.c:347-439 | exactly one of next byte, next command or STOP, by the remaining and sent counts |
| MasterEngine.AckStep2 | etpu/_etpu_set/etec_i2c_master.c:336-440 | the clock cycle after the ACK slot followed by the three-way continuation |
| MasterEngine.AckStep2NextByte | etpu/_etpu_set/etec_i2c_master.c:347-382 | with bytes left the next byte begins; a write sends its bit 7 first |
| MasterEngine.AckStep2NextCommand | etpu/_etpu_set/etec_i2c_master.c:383-417 | buffer done and commands left: next header loaded for a repeated START |
| MasterEngine.AckStep2Finish | etpu/_etpu_set/etec_i2c_master.c:418-439 | after the last command, SDA goes low for the STOP |
| MasterEngine.BeginStopStep | etpu/_etpu_set/etec_i2c_master.c:454-480 | SDA released tSU;STO after the observed SCL rise (the STOP), SCL_in off |
| MasterEngine.FinishStopStep | etpu/_etpu_set/etec_i2c_master.c:486-495 | in_use cleared and the host interrupted; nothing else changes |
| MasterEngine.FinishRepeatedStartStep | etpu/_etpu_set/etec_i2c_master.c:505-532 | SDA pulled low tSU;STA after SCL was seen high (repeated START), data-bit threads selected |
| MasterEngine.SclInThread | etpu/_etpu_set/etec_i2c_master.c:583-618 | the SCL_in entries keep the configuration and in_use, only add error flags, and write RAM only when storing a read byte |
| MasterEngine.SclOutThread | etpu/_etpu_set/etec_i2c_master.c:545-580 | the SCL_out entries keep configuration, RAM and flags, and clear in_use only at the end of a STOP |
| MasterEngine.MasterStep | etpu/_etpu_set/etec_i2c_master.c:545-696 | no event changes the configuration; flags only accumulate until a latch request; only a start request sets in_use and only the STOP's end clears it |
| MasterEngine.I2CMaster.constructor | etpu/i2c/etpu_i2c_master.c:64-77 | a zeroed frame over the given data RAM |
| MasterEngine.I2CMaster.Init | etpu/_etpu_set/etec_i2c_master.c:53-116 | the frame ends as `InitStep` of the frame before |
| MasterEngine.I2CMaster.Shutdown | etpu/_etpu_set/etec_i2c_master.c:119-124 | the frame ends as `ShutdownStep` says |
| MasterEngine.I2CMaster.LatchAndClearErrorFlags | etpu/_etpu_set/etec_i2c_master.c:127-131 | the frame ends as `LatchAndClearStep` says |
| MasterEngine.I2CMaster.LoadCommandAt | etpu/_etpu_set/etec_i2c_master.c:155-165 | the frame ends as `LoadCommand` says |
| MasterEngine.I2CMaster.StartTransfer | etpu/_etpu_set/etec_i2c_master.c:136-185 | the frame ends as `StartTransferStep` says |
| MasterEngine.I2CMaster.ScheduleClock | etpu/_etpu_set/etec_i2c_master.c:250-256 | the frame ends as `ClockCycle` says |
| MasterEngine.I2CMaster.AckSlot | etpu/_etpu_set/etec_i2c_master.c:206-245 | the frame ends as `BeginAckSlot` says |
| MasterEngine.I2CMaster.DataBit | etpu/_etpu_set/etec_i2c_master.c:246-277 | the frame ends as `NextBit` says |
| MasterEngine.I2CMaster.PulseClock | etpu/_etpu_set/etec_i2c_master.c:194-278 | the frame ends as `PulseClockStep` says |
| MasterEngine.I2CMaster.PulseClockIgnore | etpu/_etpu_set/etec_i2c_master.c:282-293 | the frame ends as `PulseClockIgnoreStep` says |
| MasterEngine.I2CMaster.StoreReceivedByte | etpu/_etpu_set/etec_i2c_master.c:328-330 | the data RAM and pointer end as `StoreReceived` says |
| MasterEngine.I2CMaster.ProcessAck | etpu/_etpu_set/etec_i2c_master.c:302-332 | the frame ends as `ProcessAckStep` says |
| MasterEngine.I2CMaster.NextByte | etpu/_etpu_set/etec_i2c_master.c:347-382 | the frame ends as `StartNextByte` says |
| MasterEngine.I2CMaster.NextCommand | etpu/_etpu_set/etec_i2c_master.c:383-417 | the frame ends as `StartNextCommand` says |
| MasterEngine.I2CMaster.StopNext | etpu/_etpu_set/etec_i2c_master.c:418-439 | the frame ends as `PrepareStop` says |
| MasterEngine.I2CMaster.Continue | etpu/_etpu_set/etec_i2c_master.c:347-439 | the frame ends as `ContinueAfterAck` says |
| MasterEngine.I2CMaster.ProcessAckStep2 | etpu/_etpu_set/etec_i2c_master.c:336-440 | the frame ends as `AckStep2` says |
| MasterEngine.I2CMaster.BeginStop | etpu/_etpu_set/etec_i2c_master.c:454-480 | the frame ends as `BeginStopStep` says |
| MasterEngine.I2CMaster.FinishStop | etpu/_etpu_set/etec_i2c_master.c:486-495 | the frame ends as `FinishStopStep` says |
| MasterEngine.I2CMaster.FinishRepeatedStart | etpu/_etpu_set/etec_i2c_master.c:505-532 | the frame ends as `FinishRepeatedStartStep` says |
| MasterProperties.HeaderDrives | etpu/_etpu_set/etec_i2c_master.c:246-266 | the header's SDA actions are bit 7, then the seven drives of the shifted header |
| MasterProperties.DataBitsOut | etpu/_etpu_set/etec_i2c_master.c:361-380 | bit 7 of a data byte from the carry at load, then seven shifts, give all eight bits MSB first |
| MasterProperties.DataDrives | etpu/_etpu_set/etec_i2c_master.c:361-380 | a data byte's SDA actions are its bit 7, then its seven other bits |
| MasterProperties.RiseRunsPulseClock | etpu/_etpu_set/etec_i2c_master.c:583-618 | an SCL rise in the data-bit state runs `PulseClock` |
| MasterProperties.RiseRunsProcessAck | etpu/_etpu_set/etec_i2c_master.c:583-618 | an SCL rise in the ACK state runs `ProcessAck` |
| MasterProperties.MatchRunsPulseClockIgnore | etpu/_etpu_set/etec_i2c_master.c:545-580 | an SCL_out match in the data-bit state runs `PulseClockIgnore` |
| MasterProperties.StartRunsStartTransfer | etpu/_etpu_set/etec_i2c_master.c:545-696 | a start request runs `StartTransfer` |
| MasterProperties.LinkRunsAckStep2 | etpu/_etpu_set/etec_i2c_master.c:545-696 | the link runs `ProcessAck_Step2` |
| MasterProperties.WriteBitsDriven | etpu/_etpu_set/etec_i2c_master.c:246-266 | during a write, n SCL rises drive the first n carries of the working register and keep the data-bit state |
| MasterProperties.ReadBitsSampled | etpu/_etpu_set/etec_i2c_master.c:268-275 | during a read, each SCL rise shifts its SDA sample in and SDA stays released |
| MasterProperties.RunAppend | etpu/_etpu_set/etec_i2c_master.c:545-696 | running two event sequences in turn is running their concatenation, and the SDA traces join |
| MasterProperties.HeaderStart | etpu/_etpu_set/etec_i2c_master.c:136-293 | a start request pulls SDA low and the match ending the START drives bit 7 of the first header |
| MasterProperties.HeaderGoesOut | etpu/_etpu_set/etec_i2c_master.c:136-278 | a transfer begins with SDA low (START), then the eight bits of the first header MSB first, one per SCL cycle (UM10204 sections 3.1.4, 3.1.5) |
| MasterProperties.FirstHeaderBit | etpu/_etpu_set/etec_i2c_master.c:194-293 | the SCL_out match that ends a START or repeated START drives bit 7 of the loaded header and leaves seven bits to clock, status unchanged |
| MasterProperties.RiseRunsFinishRepeatedStart | etpu/_etpu_set/etec_i2c_master.c:583-618 | an SCL rise in the repeated-START state runs `FinishRepeatedStart` |
| MasterProperties.RiseRunsBeginStop | etpu/_etpu_set/etec_i2c_master.c:583-618 | an SCL rise in the STOP state runs `BeginStop` |
| MasterProperties.MatchRunsFinishStop | etpu/_etpu_set/etec_i2c_master.c:545-580 | an SCL_out match in the STOP state runs `FinishStop` |
| MasterProperties.TransferEnds | etpu/_etpu_set/etec_i2c_master.c:418-495 | after the last ACK slot of the last command: SDA is pulled low while SCL is low, the next SCL rise schedules SDA's release tSU;STO later with SCL high (the STOP, UM10204 section 3.1.4), and the match then clears in_use and interrupts the host, with the error flags, configuration and RAM kept |
| MasterProperties.RepeatedStartBegins | etpu/_etpu_set/etec_i2c_master.c:383-532 | after a command that is not the last: SDA released, then pulled low tSU;STA after the SCL rise with SCL left high, then bit 7 of the next command's header; the cursor moves to the next command and the status is unchanged |
| MasterProperties.RepeatedStartHeader | etpu/_etpu_set/etec_i2c_master.c:383-532 | combined format (UM10204 section 3.1.10): SDA released, a repeated START, then the next command's header MSB first, one bit per SCL cycle, with no STOP between the commands and the master still in use; the next command's buffer, size and direction are loaded |
| MasterProperties.DataByteSent | etpu/_etpu_set/etec_i2c_master.c:246-382 | a data byte of a write puts exactly the byte at the buffer pointer on SDA, MSB first |
| MasterProperties.ReadAckSlot | etpu/_etpu_set/etec_i2c_master.c:206-332 | the eighth rise of a read byte drives ACK while bytes remain and NACK after the last; the next stores the byte |
| MasterProperties.ReadBitsAndAck | etpu/_etpu_set/etec_i2c_master.c:206-332 | eight sampled bits then the ACK slot: the sampled byte is stored and ACK or NACK driven |
| MasterProperties.ReadByteStored | etpu/_etpu_set/etec_i2c_master.c:206-382 | a data byte of a read: the byte the slave sent is stored at the buffer pointer, the pointer advances, ACK/NACK by the remaining count |
| MasterProperties.ReadSamplesByte | etpu/_etpu_set/etec_i2c_master.c:268-275 | eight samples, the last at the ACK slot's start, assemble the byte sent |
| MasterProperties.RunKeepsConfig | etpu/_etpu_set/etec_i2c_master.c:53-532 | no sequence of events changes the host's configuration |
| MasterProperties.RunKeepsErrorFlags | etpu/_etpu_set/etec_i2c_master.c:127-131 | error flags are sticky: without a latch request no run clears a flag |
| MasterProperties.RunStaysFree | etpu/_etpu_set/etec_i2c_master.c:136-152 | a free master stays free until a start request |
| MasterProperties.RunStaysBusy | etpu/_etpu_set/etec_i2c_master.c:486-495 | a busy master stays busy until the SCL_out match that ends its STOP |
| SlaveEngine.HeaderDecision | etpu/_etpu_set/etec_i2c_slave.c:326-352 | addressed iff the masked header equals the address, or it is 0 and general calls are accepted; the direction is bit 0; otherwise the START byte 0x01 or not addressed (UM10204 sections 3.1.10, 3.1.13, 3.1.15) |
| SlaveEngine.RestartIdleDetect | etpu/_etpu_set/etec_i2c_slave.c:229-244 | FIND_IDLE, counter 0, both lines re-armed on any edge |
| SlaveEngine.InitStep | etpu/_etpu_set/etec_i2c_slave.c:58-131 | FIND_IDLE, counter 0, both outputs released |
| SlaveEngine.ShutdownStep | etpu/_etpu_set/etec_i2c_slave.c:134-139 | edge detection off, outputs released, state kept |
| SlaveEngine.IdleDetectPassStep | etpu/_etpu_set/etec_i2c_slave.c:171-196 | the counter grows; IDLE exactly when it reaches 2, and then both lines watch for START |
| SlaveEngine.IdleDetectFailStep | etpu/_etpu_set/etec_i2c_slave.c:201-244 | any failed check restarts idle detection |
| SlaveEngine.TransferStartSdaStep | etpu/_etpu_set/etec_i2c_slave.c:250-261 | START_SDA_LOW iff SCL is high and the bus was idle; otherwise idle detection restarts |
| SlaveEngine.TransferStartSclStep | etpu/_etpu_set/etec_i2c_slave.c:266-285 | after START_SDA_LOW the header begins with counts and register zeroed; otherwise idle detection restarts and INVALID_START is set only from IDLE |
| SlaveEngine.MatchHeader | etpu/_etpu_set/etec_i2c_slave.c:323-352 | an addressed header is ACKed, recorded, its direction taken and its buffer chosen; 0x01 gets read mode; any other header restarts idle detection |
| SlaveEngine.StoreByte | etpu/_etpu_set/etec_i2c_slave.c:354-363 | the byte is stored while the incremented count is within the write buffer and dropped with BUFFER_OVERFLOW past it; ACK either way |
| SlaveEngine.DataBitReadyStep | etpu/_etpu_set/etec_i2c_slave.c:290-365 | the SDA level is shifted into the LSB and counted; the header or data check runs exactly on the eighth bit |
| SlaveEngine.OutputDataBitStep | etpu/_etpu_set/etec_i2c_slave.c:370-412 | while sending, the carry of a shift is driven on SDA and after the ninth level the ACK is awaited; in the STOP watch a further SCL edge sets STOP_FAILED |
| SlaveEngine.NextReadByte | etpu/_etpu_set/etec_i2c_slave.c:463-482 | after a NACK, the STOP watch; after an ACK, the next read-buffer byte, or 0x00 with BUFFER_OVERFLOW past its size |
| SlaveEngine.HandleAckStep | etpu/_etpu_set/etec_i2c_slave.c:419-486 | the slave pulls SDA low to ACK or samples the master's ACK; at the slot's end a write releases SDA and a read continues |
| SlaveEngine.FoundStopStep | etpu/_etpu_set/etec_i2c_slave.c:491-510 | reports the byte count and interrupts; with SCL high it is a STOP and the bus is IDLE, otherwise STOP_FAILED |
| SlaveEngine.FoundRepeatedStartStep | etpu/_etpu_set/etec_i2c_slave.c:515-534 | reports the byte count; with SCL high it is a repeated START, otherwise INVALID_START |
| SlaveEngine.ReadDataReadyStep | etpu/_etpu_set/etec_i2c_slave.c:142-155 | the read is reloaded from the buffer's start and SCL released tSU;DAT later |
| SlaveEngine.LatchAndClearStep | etpu/_etpu_set/etec_i2c_slave.c:158-162 | latched := running flags, running := 0 |
| SlaveEngine.I2CSlave.constructor | etpu/i2c/etpu_i2c_slave.c:62-75 | a zeroed frame over the given data RAM |
| SlaveEngine.I2CSlave.RestartIdle | etpu/_etpu_set/etec_i2c_slave.c:229-244 | the frame ends as `RestartIdleDetect` says |
| SlaveEngine.I2CSlave.Init | etpu/_etpu_set/etec_i2c_slave.c:58-131 | the frame ends as `InitStep` says |
| SlaveEngine.I2CSlave.Shutdown | etpu/_etpu_set/etec_i2c_slave.c:134-139 | the frame ends as `ShutdownStep` says |
| SlaveEngine.I2CSlave.IdleDetectPass | etpu/_etpu_set/etec_i2c_slave.c:171-196 | the frame ends as `IdleDetectPassStep` says |
| SlaveEngine.I2CSlave.IdleDetectFail | etpu/_etpu_set/etec_i2c_slave.c:201-244 | the frame ends as `IdleDetectFailStep` says |
| SlaveEngine.I2CSlave.TransferStartSda | etpu/_etpu_set/etec_i2c_slave.c:250-261 | the frame ends as `TransferStartSdaStep` says |
| SlaveEngine.I2CSlave.TransferStartScl | etpu/_etpu_set/etec_i2c_slave.c:266-285 | the frame ends as `TransferStartSclStep` says |
| SlaveEngine.I2CSlave.MatchHeaderByte | etpu/_etpu_set/etec_i2c_slave.c:323-352 | the frame ends as `MatchHeader` says |
| SlaveEngine.I2CSlave.StoreDataByte | etpu/_etpu_set/etec_i2c_slave.c:354-363 | the frame and data RAM end as `StoreByte` says |
| SlaveEngine.I2CSlave.DataBitReady | etpu/_etpu_set/etec_i2c_slave.c:290-365 | the frame ends as `DataBitReadyStep` says |
| SlaveEngine.I2CSlave.OutputDataBit | etpu/_etpu_set/etec_i2c_slave.c:370-412 | the frame ends as `OutputDataBitStep` says |
| SlaveEngine.I2CSlave.LoadNextReadByte | etpu/_etpu_set/etec_i2c_slave.c:463-482 | the frame ends as `NextReadByte` says |
| SlaveEngine.I2CSlave.HandleAck | etpu/_etpu_set/etec_i2c_slave.c:419-486 | the frame ends as `HandleAckStep` says |
| SlaveEngine.I2CSlave.FoundStop | etpu/_etpu_set/etec_i2c_slave.c:491-510 | the frame ends as `FoundStopStep` says |
| SlaveEngine.I2CSlave.FoundRepeatedStart | etpu/_etpu_set/etec_i2c_slave.c:515-534 | the frame ends as `FoundRepeatedStartStep` says |
| SlaveEngine.I2CSlave.ReadDataReady | etpu/_etpu_set/etec_i2c_slave.c:142-155 | the frame ends as `ReadDataReadyStep` says |
| SlaveEngine.I2CSlave.LatchAndClearErrorFlags | etpu/_etpu_set/etec_i2c_slave.c:158-162 | the frame ends as `LatchAndClearStep` says |
| SlaveProperties.ReceiveBits | etpu/_etpu_set/etec_i2c_slave.c:306-311 | before the eighth bit, each SCL rise shifts SDA into the LSB and counts it; nothing else changes |
| SlaveProperties.ReceiveAppend | etpu/_etpu_set/etec_i2c_slave.c:306-311 | receiving two runs of samples is receiving their concatenation |
| SlaveProperties.EighthBit | etpu/_etpu_set/etec_i2c_slave.c:311-323 | the eighth bit completes the byte and runs the header or data check |
| SlaveProperties.HeaderShiftedIn | etpu/_etpu_set/etec_i2c_slave.c:306-323 | after a START, eight header bits leave exactly the header in the register and run the header check |
| SlaveProperties.HeaderDecisionOnByte | etpu/_etpu_set/etec_i2c_slave.c:326-327 | the header test on a register holding exactly a byte is the test on the byte |
| SlaveProperties.MatchHeaderOutcome | etpu/_etpu_set/etec_i2c_slave.c:326-352 | the header check, by what the header test concluded |
| SlaveProperties.HeaderReceived | etpu/_etpu_set/etec_i2c_slave.c:306-352 | the slave ACKs exactly a header whose masked bits are its address, or the general call when accepted; it records the header, takes bit 0 as the direction and points at that direction's buffer |
| SlaveProperties.HeaderChecked | etpu/_etpu_set/etec_i2c_slave.c:323-352 | the header check stated on the header byte |
| SlaveProperties.ByteCompletes | etpu/_etpu_set/etec_i2c_slave.c:306-323 | the bits that bring the count to eight leave every bit in the register and run the check |
| SlaveProperties.FirstDataBit | etpu/_etpu_set/etec_i2c_slave.c:306-318 | the first data bit is shifted in and SDA is watched for STOP or repeated START |
| SlaveProperties.StopWatchEnds | etpu/_etpu_set/etec_i2c_slave.c:295-305 | the SCL fall after the first bit ends that watch |
| SlaveProperties.DataByteShiftedIn | etpu/_etpu_set/etec_i2c_slave.c:290-365 | the nine edges of a data byte leave exactly the byte in the register for the store |
| SlaveProperties.DataByteAccepted | etpu/_etpu_set/etec_i2c_slave.c:354-459 | a data byte and its ACK slot: SDA pulled low, then the byte taken as `Accepted` says |
| SlaveProperties.AckSlotOfWrite | etpu/_etpu_set/etec_i2c_slave.c:419-459 | the slave pulls SDA low for the ACK, then releases it and clears the register |
| SlaveProperties.StoreThenRelease | etpu/_etpu_set/etec_i2c_slave.c:354-459 | the store of a byte then the release after its ACK slot is `Accepted` |
| SlaveProperties.WriteMessageStores | etpu/_etpu_set/etec_i2c_slave.c:354-363 | the bytes that fit are stored in order, the rest counted and dropped with BUFFER_OVERFLOW, the count covers all |
| SlaveProperties.OverflowTail | etpu/_etpu_set/etec_i2c_slave.c:356-359 | once the buffer is full, every further byte is only counted, with BUFFER_OVERFLOW |
| SlaveProperties.DrivenLevels | etpu/_etpu_set/etec_i2c_slave.c:397-411 | each SCL fall drives the carry of a shift of the register; the ninth level ends the byte |
| SlaveProperties.ClockedChannels | etpu/_etpu_set/etec_i2c_slave.c:397-411 | after the last level SDA holds it and SCL rises are awaited for the ACK |
| SlaveProperties.OutputBit | etpu/_etpu_set/etec_i2c_slave.c:397-411 | one SCL fall while sending drives the carry and shifts |
| SlaveProperties.ReadWordOut | etpu/_etpu_set/etec_i2c_slave.c:470-482 | a read-buffer byte goes out as its eight bits, then SDA released for the ACK |
| SlaveProperties.OverflowWord | etpu/_etpu_set/etec_i2c_slave.c:475-481 | past the read buffer the slave loads the word of a 0x00 byte |
| SlaveProperties.NextByteLoaded | etpu/_etpu_set/etec_i2c_slave.c:470-482 | after an ACK the next byte is loaded and its first bit driven |
| SlaveProperties.ReadByteSent | etpu/_etpu_set/etec_i2c_slave.c:370-482 | after an ACK the slave drives the next read-buffer byte MSB first, then releases SDA; past the buffer 0x00 with BUFFER_OVERFLOW |
| SlaveProperties.StartCondition | etpu/_etpu_set/etec_i2c_slave.c:250-285 | on an idle bus, SDA falling with SCL high then SCL falling is a START, and a header is awaited (UM10204 section 3.1.4) |
| SlaveProperties.RepeatedStartCondition | etpu/_etpu_set/etec_i2c_slave.c:515-534 | a repeated START seen during the STOP watch also leads to a header |
| SlaveProperties.WriteHeaderAcked | etpu/_etpu_set/etec_i2c_slave.c:326-459 | an addressed write header and its ACK: the first data byte is awaited at the write buffer's start with count 0 |
| SlaveProperties.HeaderWriteState | etpu/_etpu_set/etec_i2c_slave.c:326-340 | an addressed write header changes only mode, direction, pointer and header |
| SlaveProperties.WriteReceived | etpu/_etpu_set/etec_i2c_slave.c:290-459 | the data bytes of a write, thread by thread, are taken as `WriteMessage` says |
| SlaveProperties.WriteEndsAtStop | etpu/_etpu_set/etec_i2c_slave.c:491-510 | a STOP after a byte's ACK slot reports the count, interrupts and leaves the slave idle |
| SlaveProperties.WriteTransferStores | etpu/_etpu_set/etec_i2c_slave.c:250-510 | end to end: the bytes that fit are in the write buffer in order from its start, the count is the number sent, BUFFER_OVERFLOW iff more were sent than fit, and the slave is idle |
| SlaveProperties.WriteDataThenStop | etpu/_etpu_set/etec_i2c_slave.c:354-510 | the data bytes and the STOP, from the first data byte on |
| SlaveProperties.DataWaitHolds | etpu/_etpu_set/etec_i2c_slave.c:441-449 | in data-wait mode the first read byte's ACK slot ends with SCL held low and a data request |
| SlaveProperties.DataReadyResends | etpu/_etpu_set/etec_i2c_slave.c:142-155 | data ready sends the first read-buffer byte as it is now and releases SCL tSU;DAT later |
| SlaveProperties.ReadValues | etpu/_etpu_set/etec_i2c_slave.c:470-482 | the bytes a read sends: the read buffer from the pointer, 0x00 past its end |
| SlaveProperties.ReadWordTail | etpu/_etpu_set/etec_i2c_slave.c:398-411 | after nine levels the register is empty and the ninth level was high |
| SlaveProperties.ByteReadExact | etpu/_etpu_set/etec_i2c_slave.c:370-486 | one read byte and the master's ACK slot, thread by thread, is `Sent` |
| SlaveProperties.AckInSampled | etpu/_etpu_set/etec_i2c_slave.c:428-436 | the master's ACK level is recorded and nothing else changes |
| SlaveProperties.ReadMessageSent | etpu/_etpu_set/etec_i2c_slave.c:370-482 | while the master ACKs, the slave sends the read buffer byte after byte, 0x00 once exhausted (UM10204 section 3.1.10) |
| SlaveProperties.ReadFrameSent | etpu/_etpu_set/etec_i2c_slave.c:370-486 | while the master ACKs, every byte of a read is one `Sent` transition |
| SlaveProperties.ReadFrameState | etpu/_etpu_set/etec_i2c_slave.c:470-482 | after a read the count covers every byte sent, BUFFER_OVERFLOW when that passes the buffer, the last ACK level recorded |
| SlaveProperties.FlagsAfterRead | etpu/_etpu_set/etec_i2c_slave.c:475-481 | the overflow flags of the first byte and the rest combine to the flag of the whole read |
| SlaveProperties.ReadEndsAtStop | etpu/_etpu_set/etec_i2c_slave.c:463-510 | after a NACK, SDA rising with SCL high is the STOP, which reports the count and leaves the slave idle; an SCL fall first is STOP_FAILED |
| SlaveProperties.AfterNack | etpu/_etpu_set/etec_i2c_slave.c:463-468 | the ACK slot after a NACK ends in the STOP watch |
| SlaveProperties.WatchForStop | etpu/_etpu_set/etec_i2c_slave.c:377-396 | the SCL rise after a NACK sets SDA to watch for STOP or repeated START |
| SlaveProperties.ThreadKeepsConfig | etpu/_etpu_set/etec_i2c_slave.c:58-534 | no thread writes the host's configuration |
| SlaveProperties.ThreadRaises | etpu/_etpu_set/etec_i2c_slave.c:266-530 | every thread but the latch-and-clear keeps the configuration and either leaves the error flags as they were or raises the one flag it owns: INVALID_START, BUFFER_OVERFLOW or STOP_FAILED |
| SlaveProperties.ThreadKeepsFlags | etpu/_etpu_set/etec_i2c_slave.c:158-162 | no thread but the latch-and-clear clears an error flag |
| SlaveProperties.RunKeepsConfig | etpu/_etpu_set/etec_i2c_slave.c:58-534 | no run of threads writes the configuration |
| SlaveProperties.RunKeepsFlags | etpu/_etpu_set/etec_i2c_slave.c:158-162 | without a latch-and-clear no run of threads clears an error flag |
| SlaveProperties.IdleDetected | etpu/_etpu_set/etec_i2c_slave.c:171-244 | the bus is idle exactly when the last two checks since idle detection restarted found their lines high; then both lines watch for START |
| SlaveApi.SlaveConfigOf | etpu/i2c/etpu_i2c_slave.c:86-103 | address and mask kept, general call iff nonzero, DATA_WAIT/DATA_READY select the data mode, sizes that fit in 24 bits kept, buffers masked into the RAM window |
| SlaveApi.Init | etpu/i2c/etpu_i2c_slave.c:21-142 | ERROR_VALUE (frame untouched) on a bad channel or priority; otherwise a cleared frame looking for an idle bus, with the configuration written |
| SlaveApi.SetReadBuffer | etpu/i2c/etpu_i2c_slave.c:145-158 | only the read buffer pointer and size change |
| SlaveApi.IssueDataReady | etpu/i2c/etpu_i2c_slave.c:160-179 | issues the data-ready request and changes nothing else |
| SlaveApi.SetWriteBuffer | etpu/i2c/etpu_i2c_slave.c:182-195 | only the write buffer pointer and size change |
| SlaveApi.GetTransferStatus | etpu/i2c/etpu_i2c_slave.c:198-216 | header, byte count and running flags, each only for a non-null output |
| SlaveApi.WriteData | etpu/i2c/etpu_i2c_slave.c:239-241 | the data handed back is min(byte count, write buffer size) bytes long |
| SlaveApi.GetWriteData | etpu/i2c/etpu_i2c_slave.c:219-247 | rejects a null pointer; otherwise header and byte count, and exactly the min(byte count, buffer size) bytes of the write buffer copied in order, nothing past them written |
| SlaveApi.HostReadsWrite | etpu/i2c/etpu_i2c_slave.c:219-247 | after a write to this slave the host reads back the header, the number of bytes sent, and the bytes that fit, in order |
| SlaveApi.DemoWrite | demo_SIM/main.c:205-210 | a 4-byte write 0x11..0x44 to 0x64 (mask 0xFE) reads back as those bytes, size 4, header 0x64 |
| SlaveApi.DemoGeneralCall | demo_SIM/main.c:354-361 | a one-byte general call reaches every slave that accepts general calls: header 0x00, size 1, the byte |
| SlaveApi.LatchClearErrorFlags | etpu/i2c/etpu_i2c_slave.c:250-269 | issues the latch request and changes nothing else |
| SlaveApi.GetRunningErrorFlags | etpu/i2c/etpu_i2c_slave.c:271-284 | returns the running error flags |
| SlaveApi.ClearRunningErrorFlags | etpu/i2c/etpu_i2c_slave.c:286-296 | zeroes the running flags, keeps the latched ones |
| SlaveApi.GetLatchedErrorFlags | etpu/i2c/etpu_i2c_slave.c:298-311 | returns the latched error flags |
| SlaveApi.ClearLatchedErrorFlags | etpu/i2c/etpu_i2c_slave.c:313-323 | zeroes the latched flags, keeps the running ones |

## Left out

- The slave's entry tables (`etpu/_etpu_set/etec_i2c_slave.c:537-691`) are not a function of the model. The slave properties compose the thread step functions in the order the entry table runs them. The master's entry tables are modelled, as `MasterStep`.
- Channel-register primitives are represented, not simulated: match registers are `Match(time, action)` records, and edge detection, flags, links and interrupts are fields of a `Channels` record. The hardware's timing of these is not modelled.
- Frame allocation (`fs_etpu_malloc_ext`) and the CPBA, CR and SCR writes are hardware set-up, so `Init` on either side leaves the channel registers as they were. The init host service request, and the wait for it, are left out for the same reason.
- Pin muxing and module bring-up (`etpu_gct.c`, `etpu_gct.h`, `demo_EVB`) are board configuration. The generated eTPU images are build output.
- `etpu/i2c/etpu_i2c.c` is not part of this model. Its `allocate_buffer` is a malloc wrapper and its `shutdown` is a register busy-wait.
- Concurrency between the host and the eTPU is not modelled: each host call and each thread runs atomically. Multi-master arbitration and electrical timing are outside the code too.
- `ProcessAckIgnore` and `FinishRepeatedStartIgnore` only clear transition latches, so they are the identity on the model's state.
- Byte counts and buffer sizes inside the engines are `nat`. The 24-bit wrap of `_working_byte_cnt` after 2^24 bytes of one transfer is not modelled. The master's command count and sent count (`_cmd_cnt`, `_cmd_sent_cnt`, 8-bit in `etpu/_etpu_set/etec_i2c_master.h:202`) are `nat` too; the host stores the count through `RawCount`, which keeps it below 256, and the sent count grows by one per command, so with fewer than 256 commands it does not wrap either.
- A load outside the modelled data RAM reads 0 and a store outside it is dropped. The source would touch unrelated memory there, which only a host that misconfigures a buffer can cause.
- The polling loops of `demo_SIM/main.c` and `tests/system` are not modelled. Only their asserted outcomes are used, in `DemoWrite` and `DemoGeneralCall`.
- MasterApi.Init: requires a nonzero bit rate on the success path, because the source divides by it without a check.
- SlaveApi.GetWriteData: requires the destination to hold the bytes copied, which the source leaves to its caller.
- SlaveApi.GetWriteData: requires the destination not to be the data RAM array itself. The source copies byte by byte through any pointer, so a destination inside the eTPU data RAM that overlaps the write buffer would read bytes it has already overwritten; that overlapping copy is not modelled.

## Findings

| source | as written | input that shows it | evidently intended | confidence | as-written member | corrected member |
|---|---|---|---|---|---|---|
| etpu/i2c/etpu_i2c_master.c:362-383 | `raw_transfer` takes a 32-bit `cmd_cnt` and checks only that it is nonzero. It then writes the count into the 8-bit frame parameter `_cmd_cnt` (`etpu/_etpu_set/etec_i2c_master.h:202`) | `cmd_cnt = 256`: accepted, and stored as 0, so the master stops after the first command | refuse counts the frame cannot hold, so an accepted count reaches the frame exactly | not executed | MasterApi.RawCountWraps | MasterApi.RawTransferChecked |
