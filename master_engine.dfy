/**
 * The I2C master engine. Four eTPU channels (SCL_out, SCL_in, SDA_out, SDA_in)
 * share one channel frame. A transfer is a list of commands; each command is
 * a header byte followed by the bytes of one buffer, and consecutive commands
 * are joined by a repeated START (the combined format of section 3.1.10 of
 * UM10204). The master generates SCL itself: every rising edge seen on SCL_in
 * runs a thread that schedules the next low and high phase on SCL_out and the
 * next data level on SDA_out, so a slave that stretches the clock delays the
 * whole bit sequence.
 *
 * As in the slave, every thread is a step function on `Frame` and a method of
 * the class `I2CMaster` proved to move the frame exactly as that function says.
 * The flags F0/F1 of SCL_in and SCL_out select the thread an event runs.
 */
module MasterEngine {
  import opened I2CCommon

  /** Channel flags F0 and F1, the state the entry tables dispatch on. */
  datatype Flags = Flags(f0: bool, f1: bool)

  // (0,0) data bits, (1,0) ACK bit, (0,1) repeated START, (1,1) STOP
  const BITS: Flags := Flags(false, false)
  const ACK: Flags := Flags(true, false)
  const REPEATED_START: Flags := Flags(false, true)
  const STOP: Flags := Flags(true, true)

  /** What a channel does to its pin when a match fires. */
  datatype OnMatch = PinLow | PinHigh | NoChange

  /** A match register: at `time` the channel does `action`. */
  datatype Match = Match(time: bv24, action: OnMatch)

  function Drives(level: Level): OnMatch
  {
    if level == High then PinHigh else PinLow
  }

  /** The bus timing the host writes into the frame, in TCR1 ticks. */
  datatype Timing = Timing(
    tLow: bv24,
    tHigh: bv24,
    tBuf: bv24,
    tSuSta: bv24,
    tSuSto: bv24,
    tHdDat: bv24,
    trMax: bv24)              // largest SCL rise time before the clock counts as stretched

  /** `I2C_cmd`: one read or write of a buffer in the data RAM. */
  datatype Command = Command(header: bv8, buffer: nat, size: nat)

  /** The frame fields the threads use to track a transfer. */
  datatype Engine = Engine(
    bitCount: nat,            // `_working_bit_count`: bits still to clock before the ACK slot
    workingByte: bv24,
    reading: bool,            // `_read_write_flag` of the byte on the bus: true for a read
    nextEdge: bv24,           // `_pulse_edge_next_timestamp`: the expected SCL rising edge
    current: nat,             // `_p_current_cmd`, an index into the command list
    sentCnt: nat,             // `_cmd_sent_cnt`
    remaining: nat,           // `_remaining_byte_count`
    workingPtr: nat,          // `_p_working_buf`, an address in the data RAM
    bufSize: nat,             // `_working_buf_size`
    bufReading: bool,         // `_working_buf_read_write_flag`: the direction of the command
    startFlag: bool)          // a START has been scheduled and its clock not yet begun

  /** What the host writes into the frame; the threads only read it. */
  datatype MasterConfig = MasterConfig(
    timing: Timing,
    commands: seq<Command>,   // the command list `_p_cmd_list` points at
    cmdCnt: nat)

  /** The frame fields the host reads back. */
  datatype Status = Status(inUse: bool, errorFlags: bv8, latchedErrorFlags: bv8)

  /** What the threads set on the channels, and the pending requests. */
  datatype Channels = Channels(
    sclOutFlags: Flags,
    sclInFlags: Flags,
    sclOutEnabled: bool,      // event handling on SCL_out (its match threads)
    sclInEnabled: bool,       // event handling on SCL_in (its rising-edge threads)
    sclOut: Level,
    sdaOut: Level,
    interrupt: bool,          // channel interrupt to the host on SCL_out
    linkPending: bool,        // link from SCL_in to SCL_out pending
    startRequest: bool,       // host service request "start transfer" pending on SCL_out
    latchRequest: bool)       // host service request "latch and clear errors" pending on SCL_in

  /** The match registers of the output channels: what happens next on the bus. */
  datatype Matches = Matches(
    sclA: Match,              // SCL_out match A: SCL falls (or a timing mark)
    sclB: Match,              // SCL_out match B: SCL rises, and the SCL_out thread runs
    sda: Match)               // SDA_out match A: the next data level

  /** The whole master state: channel frame, channels and data RAM. */
  datatype Frame = Frame(
    engine: Engine,
    config: MasterConfig,
    status: Status,
    channels: Channels,
    matches: Matches,
    ram: seq<bv8>)

  /**
   * A data byte as loaded into the working register by `*p << 17`: bit 7
   * leaves the 24-bit register as the carry and bits 6..0 land in bits 23..17.
   */
  function DataWord(b: bv8): bv24
  {
    (b as bv24) << 17
  }

  /** Whether a header byte asks for a read. */
  function HeaderIsRead(h: bv8): bool
  {
    h & RW_MASK != 0
  }

  /**
   * `erta - next > tr_max` in unsigned 24-bit arithmetic: the SCL rising edge
   * at `erta` is more than tr_max ticks past the expected edge `next`, counted
   * modulo 2^24. An edge seen before the expected one wraps to a large
   * difference, so it counts as well (`EarlyEdgeResyncs`).
   */
  function Lags(erta: bv24, next: bv24, trMax: bv24): bool
  {
    erta - next > trMax
  }

  /**
   * The reference for the next clock cycle: the expected edge while the
   * detected edge is within tr_max after it, the detected edge otherwise (a
   * slave stretched the clock, or the edge came early). Either way the
   * detected edge does not lag the new reference (it is at most tr_max past
   * it), so the master never times its next cycle from before the clock it
   * actually saw.
   */
  function Resync(erta: bv24, next: bv24, trMax: bv24): (r: bv24)
    ensures !Lags(erta, r, trMax)
    ensures !Lags(erta, next, trMax) ==> r == next
    ensures r == next || r == erta
  {
    if Lags(erta, next, trMax) then erta else next
  }

  /**
   * An edge seen `d` ticks before the expected one, with `d` and tr_max both
   * below half the TCR1 range, also moves the reference: the unsigned
   * difference wraps past tr_max.
   */
  lemma EarlyEdgeResyncs(next: bv24, d: bv24, trMax: bv24)
    requires 0 < d < 0x80_0000 && trMax < 0x80_0000
    ensures Lags(next - d, next, trMax) && Resync(next - d, next, trMax) == next - d
  {
    EarlyEdgeLags(next, d, trMax);
  }

  lemma EarlyEdgeLags(next: bv24, d: bv24, trMax: bv24)
    requires 0 < d < 0x80_0000 && trMax < 0x80_0000
    ensures Lags(next - d, next, trMax)
  {
    WrapBack(next, d);
    NegBound(d);
  }

  lemma NegBound(d: bv24)
    requires 0 < d < 0x80_0000
    ensures 0 - d > 0x80_0000
  {
  }

  lemma WrapBack(next: bv24, d: bv24)
    ensures (next - d) - next == 0 - d
  {
  }

  /** The command the index `i` selects; outside the list it reads as zeroes. */
  function CommandAt(cmds: seq<Command>, i: nat): Command
  {
    if i < |cmds| then cmds[i] else Command(0, 0, 0)
  }

  /**
   * One SCL cycle from the rising edge at `from`: SCL falls tHIGH later and
   * rises again tLOW after that, which is the next expected edge.
   */
  function ClockCycle(f: Frame, from: bv24): (r: Frame)
    ensures r.engine.nextEdge == After(After(from, f.config.timing.tHigh), f.config.timing.tLow)
    ensures r.matches == f.matches.(sclA := Match(After(from, f.config.timing.tHigh), PinLow),
                                    sclB := Match(r.engine.nextEdge, PinHigh))
    ensures r.engine == f.engine.(nextEdge := r.engine.nextEdge)
    ensures r.channels == f.channels && r.config == f.config && r.status == f.status && r.ram == f.ram
  {
    var fall := After(from, f.config.timing.tHigh);
    var rise := After(fall, f.config.timing.tLow);
    f.(engine := f.engine.(nextEdge := rise),
       matches := f.matches.(sclA := Match(fall, PinLow), sclB := Match(rise, PinHigh)))
  }

  /** SDA_out armed to drive `level` at `t`. */
  function DriveSda(f: Frame, t: bv24, level: Level): (r: Frame)
    ensures r.matches == f.matches.(sda := Match(t, Drives(level)))
    ensures r.engine == f.engine && r.channels == f.channels
    ensures r.status == f.status && r.ram == f.ram && r.config == f.config
  {
    f.(matches := f.matches.(sda := Match(t, Drives(level))))
  }

  /**
   * The command at index `i` becomes the current one: its header goes into
   * the working register with eight bits to clock, sent as a write, and the
   * buffer pointer, direction and size are taken from the command.
   */
  function LoadCommand(f: Frame, i: nat): (r: Frame)
    ensures var c := CommandAt(f.config.commands, i);
      r.engine.current == i && r.engine.workingByte == HeaderWord(c.header) && r.engine.bitCount == 8
      && r.engine.workingPtr == c.buffer && r.engine.bufReading == HeaderIsRead(c.header)
      && r.engine.bufSize == c.size && r.engine.remaining == c.size && !r.engine.reading
    ensures r.engine.nextEdge == f.engine.nextEdge && r.engine.sentCnt == f.engine.sentCnt
    ensures r.engine.startFlag == f.engine.startFlag
    ensures r.channels == f.channels && r.matches == f.matches
    ensures r.status == f.status && r.ram == f.ram && r.config == f.config
  {
    var c := CommandAt(f.config.commands, i);
    f.(engine := f.engine.(current := i, workingByte := HeaderWord(c.header), bitCount := 8,
                           workingPtr := c.buffer, bufReading := HeaderIsRead(c.header),
                           bufSize := c.size, remaining := c.size, reading := false))
  }

  /** A match register that no longer touches its pin. */
  function Disarmed(m: Match): (r: Match)
    ensures r.time == m.time && r.action == NoChange
  {
    m.(action := NoChange)
  }

  /**
   * The init threads: pending matches are disarmed, SCL_out handles its
   * matches, SCL_in waits, both outputs are released, all flags are cleared.
   */
  function InitStep(f: Frame): (r: Frame)
    ensures r.channels.sclOutFlags == BITS && r.channels.sclInFlags == BITS
    ensures r.channels.sclOutEnabled && !r.channels.sclInEnabled
    ensures r.channels.sclOut == High && r.channels.sdaOut == High
    ensures r.matches.sclA.action == NoChange && r.matches.sclB.action == NoChange
      && r.matches.sda.action == NoChange
    ensures r.engine == f.engine && r.status == f.status && r.config == f.config && r.ram == f.ram
  {
    f.(channels := f.channels.(sclOutFlags := BITS, sclInFlags := BITS, sclOutEnabled := true,
                               sclInEnabled := false, sclOut := High, sdaOut := High),
       matches := Matches(Disarmed(f.matches.sclA), Disarmed(f.matches.sclB), Disarmed(f.matches.sda)))
  }

  /** `Shutdown`: event handling stops and both outputs are released. */
  function ShutdownStep(f: Frame): (r: Frame)
    ensures !r.channels.sclOutEnabled && !r.channels.sclInEnabled
    ensures r.channels.sclOut == High && r.channels.sdaOut == High
    ensures r.engine == f.engine && r.status == f.status && r.config == f.config && r.ram == f.ram
    ensures r.matches == f.matches
  {
    f.(channels := f.channels.(sclOutEnabled := false, sclInEnabled := false, sclOut := High, sdaOut := High))
  }

  /** `LatchAndClearErrorFlags`: the running error flags move to the latched copy. */
  function LatchAndClearStep(f: Frame): (r: Frame)
    ensures r.status == Status(f.status.inUse, 0, f.status.errorFlags)
    ensures r.channels == f.channels.(latchRequest := false)
    ensures r.engine == f.engine && r.config == f.config && r.ram == f.ram && r.matches == f.matches
  {
    f.(status := f.status.(latchedErrorFlags := f.status.errorFlags, errorFlags := 0),
       channels := f.channels.(latchRequest := false))
  }

  /**
   * `StartTransfer`: while a transfer is in progress the request is refused
   * with BUSY and an interrupt. Otherwise the first command is loaded, SDA is
   * pulled low tBUF after `now` (the START), and SCL_in starts following the
   * clock; the SCL_out match at the same time begins the first clock cycle.
   */
  function StartTransferStep(f: Frame, now: bv24): (r: Frame)
    ensures f.status.inUse ==>
      r == f.(status := f.status.(errorFlags := WithFlag(f.status.errorFlags, MASTER_BUSY)),
              channels := f.channels.(interrupt := true, startRequest := false))
    ensures !f.status.inUse ==>
      var t := After(now, f.config.timing.tBuf);
      var c := CommandAt(f.config.commands, 0);
      r.status == f.status.(inUse := true) && r.engine.startFlag
      && r.engine.current == 0 && r.engine.sentCnt == 0
      && r.engine.workingByte == HeaderWord(c.header) && r.engine.bitCount == 8 && !r.engine.reading
      && r.engine.remaining == c.size && r.engine.bufSize == c.size && r.engine.workingPtr == c.buffer
      && r.engine.bufReading == HeaderIsRead(c.header) && r.engine.nextEdge == t
      && r.channels == f.channels.(sclInEnabled := true, startRequest := false)
      && r.matches == Matches(Match(t, NoChange), Match(t, NoChange), Match(t, PinLow))
      && r.ram == f.ram && r.config == f.config
  {
    if f.status.inUse then
      f.(status := f.status.(errorFlags := WithFlag(f.status.errorFlags, MASTER_BUSY)),
         channels := f.channels.(interrupt := true, startRequest := false))
    else
      var t := After(now, f.config.timing.tBuf);
      var g := f.(status := f.status.(inUse := true),
                  engine := f.engine.(startFlag := true, sentCnt := 0, nextEdge := t),
                  channels := f.channels.(sclInEnabled := true, startRequest := false),
                  matches := Matches(Match(t, NoChange), Match(t, NoChange), Match(t, PinLow)));
      LoadCommand(g, 0)
  }

  /**
   * The start of the ACK slot, once all bits of a byte are clocked: the F0
   * flags select the ACK threads; a write releases SDA for the slave's ACK,
   * and a read shifts in its last sample and drives ACK (low) while more bytes
   * are to come and NACK (high) after the last one (section 3.1.6 of UM10204).
   */
  function BeginAckSlot(g: Frame, dataTime: bv24, sdaHigh: bool): (r: Frame)
    ensures r.channels == g.channels.(sclInFlags := g.channels.sclInFlags.(f0 := true),
                                      sclOutFlags := g.channels.sclOutFlags.(f0 := true))
    ensures r.matches == g.matches.(sda := Match(dataTime,
                                                 if g.engine.reading && g.engine.remaining > 0 then PinLow else PinHigh))
    ensures !g.engine.reading ==> r.engine == g.engine
    ensures g.engine.reading ==> r.engine == g.engine.(workingByte := ShiftIn(g.engine.workingByte, sdaHigh))
    ensures r.status == g.status && r.config == g.config && r.ram == g.ram
  {
    var h := g.(channels := g.channels.(sclInFlags := g.channels.sclInFlags.(f0 := true),
                                        sclOutFlags := g.channels.sclOutFlags.(f0 := true)));
    if !g.engine.reading then
      DriveSda(h, dataTime, High)
    else
      DriveSda(h.(engine := h.engine.(workingByte := ShiftIn(g.engine.workingByte, sdaHigh))),
               dataTime, if g.engine.remaining > 0 then Low else High)
  }

  /**
   * One data bit: a write drives the carry of a one-place shift of the
   * working register, a read shifts the SDA sample in.
   */
  function NextBit(g: Frame, dataTime: bv24, sdaHigh: bool): (r: Frame)
    requires g.engine.bitCount > 0
    ensures !g.engine.reading ==>
      r.engine == g.engine.(bitCount := g.engine.bitCount - 1, workingByte := Shl1(g.engine.workingByte))
      && r.matches == g.matches.(sda := Match(dataTime, Drives(LevelOf(TopBit(g.engine.workingByte)))))
    ensures g.engine.reading ==>
      r.engine == g.engine.(bitCount := g.engine.bitCount - 1,
                            workingByte := ShiftIn(g.engine.workingByte, sdaHigh))
      && r.matches == g.matches
    ensures r.channels == g.channels && r.status == g.status && r.config == g.config && r.ram == g.ram
  {
    var h := g.(engine := g.engine.(bitCount := g.engine.bitCount - 1));
    if !g.engine.reading then
      DriveSda(h.(engine := h.engine.(workingByte := Shl1(g.engine.workingByte))),
               dataTime, LevelOf(TopBit(g.engine.workingByte)))
    else
      h.(engine := h.engine.(workingByte := ShiftIn(g.engine.workingByte, sdaHigh)))
  }

  /**
   * `PulseClock`: SCL rose during the data bits. After resynchronising to a
   * clock a slave stretched, the next SCL cycle is scheduled, then either the
   * next data bit is driven or sampled, or, with no bits left, the ACK slot
   * begins. Data and ACK levels change tHD_DAT after SCL falls.
   */
  function PulseClockStep(f: Frame, erta: bv24, sdaHigh: bool): (r: Frame)
    ensures var from := Resync(erta, f.engine.nextEdge, f.config.timing.trMax);
      var fall := After(from, f.config.timing.tHigh);
      r.engine.nextEdge == After(fall, f.config.timing.tLow)
      && r.matches.sclA == Match(fall, PinLow) && r.matches.sclB == Match(r.engine.nextEdge, PinHigh)
      && (f.engine.bitCount == 0 || !f.engine.reading ==>
            r.matches.sda.time == After(fall, f.config.timing.tHdDat))
    ensures f.engine.bitCount > 0 ==>
      r.engine.bitCount == f.engine.bitCount - 1 && r.channels == f.channels
    ensures f.engine.bitCount > 0 && !f.engine.reading ==>
      r.engine.workingByte == Shl1(f.engine.workingByte)
      && r.matches.sda.action == Drives(LevelOf(TopBit(f.engine.workingByte)))
    ensures f.engine.bitCount > 0 && f.engine.reading ==> r.matches.sda == f.matches.sda
    ensures f.engine.bitCount == 0 ==>
      r.engine.bitCount == 0
      && r.channels == f.channels.(sclInFlags := f.channels.sclInFlags.(f0 := true),
                                   sclOutFlags := f.channels.sclOutFlags.(f0 := true))
      && r.matches.sda.action == (if f.engine.reading && f.engine.remaining > 0 then PinLow else PinHigh)
    ensures f.engine.bitCount == 0 && !f.engine.reading ==> r.engine.workingByte == f.engine.workingByte
    ensures f.engine.reading ==> r.engine.workingByte == ShiftIn(f.engine.workingByte, sdaHigh)
    ensures r.engine == f.engine.(bitCount := r.engine.bitCount, workingByte := r.engine.workingByte,
                                  nextEdge := r.engine.nextEdge)
    ensures r.status == f.status && r.config == f.config && r.ram == f.ram
  {
    var from := Resync(erta, f.engine.nextEdge, f.config.timing.trMax);
    var g := ClockCycle(f, from);
    var dataTime := After(After(from, f.config.timing.tHigh), f.config.timing.tHdDat);
    if f.engine.bitCount == 0 then BeginAckSlot(g, dataTime, sdaHigh) else NextBit(g, dataTime, sdaHigh)
  }

  /**
   * `PulseClockIgnore`: an SCL_out match in the data-bit state. Only the match
   * that ends a START or repeated START begins the first clock cycle, timed
   * from the match itself; every other one is ignored.
   */
  function PulseClockIgnoreStep(f: Frame, erta: bv24, sdaHigh: bool): (r: Frame)
    ensures !f.engine.startFlag ==> r == f
    ensures f.engine.startFlag ==>
      !r.engine.startFlag && r == PulseClockStep(f.(engine := f.engine.(startFlag := false)), erta, sdaHigh)
  {
    if f.engine.startFlag then
      PulseClockStep(f.(engine := f.engine.(startFlag := false)), erta, sdaHigh)
    else f
  }

  /**
   * Whether the ACK slot ending now is checked: the slave's ACK of a header,
   * or of a written byte other than the last one of a non-empty buffer.
   */
  predicate AckChecked(e: Engine)
  {
    !e.reading && (e.remaining > 0 || e.bufSize == 0)
  }

  /** The byte just read goes to the buffer and the pointer moves past it. */
  function StoreReceived(g: Frame): (r: Frame)
    ensures r.ram == Store(g.ram, g.engine.workingPtr, Low8(g.engine.workingByte))
    ensures r.engine == g.engine.(workingPtr := g.engine.workingPtr + 1)
    ensures r.channels == g.channels && r.matches == g.matches && r.status == g.status && r.config == g.config
  {
    g.(engine := g.engine.(workingPtr := g.engine.workingPtr + 1),
       ram := Store(g.ram, g.engine.workingPtr, Low8(g.engine.workingByte)))
  }

  /**
   * `ProcessAck`: SCL rose in the ACK slot. A checked ACK that reads high is a
   * NACK: ACK_FAILED is set and the rest of the buffer is dropped. After a read
   * byte, the received byte is stored and the pointer advances. Either way the
   * second half runs on SCL_out.
   */
  function ProcessAckStep(f: Frame, erta: bv24, sdaHigh: bool): (r: Frame)
    ensures r.engine.nextEdge == Resync(erta, f.engine.nextEdge, f.config.timing.trMax)
    ensures r.channels == f.channels.(linkPending := true)
    ensures AckChecked(f.engine) && sdaHigh ==>
      r.engine.remaining == 0 && r.status.errorFlags == WithFlag(f.status.errorFlags, MASTER_ACK_FAILED)
    ensures !(AckChecked(f.engine) && sdaHigh) ==>
      r.engine.remaining == f.engine.remaining && r.status == f.status
    ensures f.engine.reading ==>
      r.ram == Store(f.ram, f.engine.workingPtr, Low8(f.engine.workingByte))
      && r.engine.workingPtr == f.engine.workingPtr + 1
    ensures !f.engine.reading ==> r.ram == f.ram && r.engine.workingPtr == f.engine.workingPtr
    ensures r.engine == f.engine.(nextEdge := r.engine.nextEdge, remaining := r.engine.remaining,
                                  workingPtr := r.engine.workingPtr)
    ensures r.config == f.config && r.matches == f.matches
    ensures r.status == f.status.(errorFlags := r.status.errorFlags)
  {
    var g := f.(engine := f.engine.(nextEdge := Resync(erta, f.engine.nextEdge, f.config.timing.trMax)),
                channels := f.channels.(linkPending := true));
    if AckChecked(f.engine) then
      if sdaHigh then
        g.(engine := g.engine.(remaining := 0),
           status := g.status.(errorFlags := WithFlag(g.status.errorFlags, MASTER_ACK_FAILED)))
      else g
    else if f.engine.reading then StoreReceived(g)
    else g
  }

  /** The three ways the end of an ACK slot continues. */
  datatype AfterAck = NextByte | NextCommand | Finish

  /** The choice `ProcessAck_Step2` makes: more bytes, another command, or the end. */
  function AfterAckChoice(e: Engine, cmdCnt: nat): AfterAck
  {
    if e.remaining > 0 then NextByte
    else if e.sentCnt + 1 < cmdCnt then NextCommand
    else Finish
  }

  /**
   * The next byte of the buffer begins: its direction becomes the direction on
   * the bus, seven bits remain after the first, and a write drives bit 7 (the
   * carry of `DataWord`) while a read releases SDA for the slave.
   */
  function StartNextByte(g: Frame, dataTime: bv24): (r: Frame)
    requires g.engine.remaining > 0
    ensures r.engine == g.engine.(reading := g.engine.bufReading, remaining := g.engine.remaining - 1, bitCount := 7,
                                  workingByte := r.engine.workingByte, workingPtr := r.engine.workingPtr)
    ensures !g.engine.bufReading ==>
      var b := Load(g.ram, g.engine.workingPtr);
      r.engine.workingByte == DataWord(b) && r.engine.workingPtr == g.engine.workingPtr + 1
      && r.matches == g.matches.(sda := Match(dataTime, Drives(LevelOf(MsbOf(b)))))
    ensures g.engine.bufReading ==>
      r.engine.workingByte == g.engine.workingByte && r.engine.workingPtr == g.engine.workingPtr
      && r.matches == g.matches.(sda := Match(dataTime, PinHigh))
    ensures r.channels == g.channels.(sclInFlags := g.channels.sclInFlags.(f0 := false),
                                      sclOutFlags := g.channels.sclOutFlags.(f0 := false))
    ensures r.status == g.status && r.config == g.config && r.ram == g.ram
  {
    var h := g.(engine := g.engine.(reading := g.engine.bufReading, remaining := g.engine.remaining - 1,
                                    bitCount := 7),
                channels := g.channels.(sclOutFlags := g.channels.sclOutFlags.(f0 := false),
                                        sclInFlags := g.channels.sclInFlags.(f0 := false)));
    if !g.engine.bufReading then
      var b := Load(g.ram, g.engine.workingPtr);
      DriveSda(h.(engine := h.engine.(workingByte := DataWord(b), workingPtr := g.engine.workingPtr + 1)),
               dataTime, LevelOf(MsbOf(b)))
    else
      DriveSda(h, dataTime, High)
  }

  /**
   * Another command follows: SDA is released so that SCL can rise with SDA
   * high before the repeated START, the F1 flags select the repeated-START
   * threads, and the next command's header is loaded.
   */
  function StartNextCommand(g: Frame, dataTime: bv24): (r: Frame)
    ensures var c := CommandAt(g.config.commands, g.engine.current + 1);
      r.engine == g.engine.(sentCnt := g.engine.sentCnt + 1, current := g.engine.current + 1,
                            workingByte := HeaderWord(c.header), bitCount := 8, reading := false,
                            remaining := c.size, bufSize := c.size, workingPtr := c.buffer,
                            bufReading := HeaderIsRead(c.header))
    ensures r.channels == g.channels.(sclOutFlags := REPEATED_START, sclInFlags := REPEATED_START)
    ensures r.matches == g.matches.(sda := Match(dataTime, PinHigh))
    ensures r.status == g.status && r.config == g.config && r.ram == g.ram
  {
    var h := g.(engine := g.engine.(sentCnt := g.engine.sentCnt + 1),
                channels := g.channels.(sclOutFlags := REPEATED_START, sclInFlags := REPEATED_START));
    LoadCommand(DriveSda(h, dataTime, High), g.engine.current + 1)
  }

  /**
   * The last command is done: SDA is pulled low so that SCL can rise with SDA
   * low before the STOP, F1 selects the STOP threads, and SCL_out stops
   * handling its matches until the STOP is scheduled.
   */
  function PrepareStop(g: Frame, dataTime: bv24): (r: Frame)
    ensures r.engine == g.engine.(sentCnt := g.engine.sentCnt + 1)
    ensures r.channels == g.channels.(sclOutFlags := g.channels.sclOutFlags.(f1 := true),
                                      sclInFlags := g.channels.sclInFlags.(f1 := true),
                                      sclOutEnabled := false)
    ensures r.matches == g.matches.(sda := Match(dataTime, PinLow))
    ensures r.status == g.status && r.config == g.config && r.ram == g.ram
  {
    var h := g.(engine := g.engine.(sentCnt := g.engine.sentCnt + 1),
                channels := g.channels.(sclOutFlags := g.channels.sclOutFlags.(f1 := true),
                                        sclInFlags := g.channels.sclInFlags.(f1 := true),
                                        sclOutEnabled := false));
    DriveSda(h, dataTime, Low)
  }

  /**
   * The continuation after an ACK slot, on a frame whose next clock cycle is
   * already scheduled: the SDA level of the next bit or condition is due at
   * `dataTime`, and the clock, status and data RAM are left alone.
   */
  function ContinueAfterAck(g: Frame, dataTime: bv24): (r: Frame)
    ensures r.matches.sclA == g.matches.sclA && r.matches.sclB == g.matches.sclB && r.matches.sda.time == dataTime
    ensures r.engine.nextEdge == g.engine.nextEdge && r.engine.startFlag == g.engine.startFlag
    ensures r.channels.linkPending == g.channels.linkPending && r.channels.sclInEnabled == g.channels.sclInEnabled
    ensures r.status == g.status && r.config == g.config && r.ram == g.ram
  {
    match AfterAckChoice(g.engine, g.config.cmdCnt)
    case NextByte => StartNextByte(g, dataTime)
    case NextCommand => StartNextCommand(g, dataTime)
    case Finish => PrepareStop(g, dataTime)
  }

  /**
   * `ProcessAck_Step2`: the clock cycle after the ACK slot. With bytes left, a
   * write drives the first bit of the next byte from the buffer and a read
   * releases SDA, and seven more bits follow. Otherwise the command is done:
   * if another command follows, SDA is released so that a repeated START can
   * be made and the next command's header is loaded; after the last command
   * SDA is pulled low for the STOP and SCL_out stops handling its matches.
   */
  function AckStep2(f: Frame): (r: Frame)
    ensures var fall := After(f.engine.nextEdge, f.config.timing.tHigh);
      r.engine.nextEdge == After(fall, f.config.timing.tLow)
      && r.matches.sclA == Match(fall, PinLow) && r.matches.sclB == Match(r.engine.nextEdge, PinHigh)
      && r.matches.sda.time == After(fall, f.config.timing.tHdDat)
    ensures !r.channels.linkPending && r.status == f.status && r.config == f.config && r.ram == f.ram
    ensures r.engine.startFlag == f.engine.startFlag && r.channels.sclInEnabled == f.channels.sclInEnabled
  {
    var dataTime := After(After(f.engine.nextEdge, f.config.timing.tHigh), f.config.timing.tHdDat);
    ContinueAfterAck(ClockCycle(f.(channels := f.channels.(linkPending := false)), f.engine.nextEdge), dataTime)
  }

  /** With bytes left, the next byte of the same buffer begins; a write sends its bit 7 first. */
  lemma AckStep2NextByte(f: Frame)
    requires AfterAckChoice(f.engine, f.config.cmdCnt) == NextByte
    ensures var r := AckStep2(f);
      r.channels.sclInFlags == f.channels.sclInFlags.(f0 := false)
      && r.channels.sclOutFlags == f.channels.sclOutFlags.(f0 := false)
      && r.engine.reading == f.engine.bufReading && r.engine.bitCount == 7
      && r.engine.remaining == f.engine.remaining - 1
    ensures var r := AckStep2(f);
      !f.engine.bufReading ==>
      var b := Load(f.ram, f.engine.workingPtr);
      r.engine.workingByte == DataWord(b) && r.engine.workingPtr == f.engine.workingPtr + 1
      && r.matches.sda.action == Drives(LevelOf(MsbOf(b)))
    ensures var r := AckStep2(f);
      f.engine.bufReading ==> r.engine.workingPtr == f.engine.workingPtr && r.matches.sda.action == PinHigh
  {
  }

  /** With the buffer done and commands left, the next command's header is loaded for a repeated START. */
  lemma AckStep2NextCommand(f: Frame)
    requires AfterAckChoice(f.engine, f.config.cmdCnt) == NextCommand
    ensures var r := AckStep2(f);
      var c := CommandAt(f.config.commands, f.engine.current + 1);
      r.engine.sentCnt == f.engine.sentCnt + 1 && r.engine.current == f.engine.current + 1
      && r.engine.workingByte == HeaderWord(c.header) && r.engine.bitCount == 8 && !r.engine.reading
      && r.engine.remaining == c.size && r.engine.bufSize == c.size && r.engine.workingPtr == c.buffer
      && r.engine.bufReading == HeaderIsRead(c.header)
      && r.channels.sclInFlags == REPEATED_START && r.channels.sclOutFlags == REPEATED_START
      && r.channels.sclOutEnabled == f.channels.sclOutEnabled
      && r.matches.sda.action == PinHigh
  {
  }

  /** After the last command, SDA goes low for the STOP and the STOP threads are selected. */
  lemma AckStep2Finish(f: Frame)
    requires AfterAckChoice(f.engine, f.config.cmdCnt) == Finish
    ensures var r := AckStep2(f);
      r.engine.sentCnt == f.engine.sentCnt + 1 && r.engine.remaining == 0
      && r.channels.sclInFlags == f.channels.sclInFlags.(f1 := true)
      && r.channels.sclOutFlags == f.channels.sclOutFlags.(f1 := true) && !r.channels.sclOutEnabled
      && r.matches.sda.action == PinLow
  {
  }

  /**
   * `BeginStop`: SCL rose after the last ACK slot with SDA held low. SDA is
   * released tSU_STO later, which is the STOP, and an SCL_out match at the same
   * time ends the transfer; SCL_in stops following the clock.
   */
  function BeginStopStep(f: Frame, erta: bv24): (r: Frame)
    ensures r.channels == f.channels.(sclInEnabled := false, sclInFlags := BITS, sclOutEnabled := true)
    ensures var t := After(erta, f.config.timing.tSuSto);
      r.matches == Matches(Match(t, PinHigh), Match(t, PinHigh), Match(t, PinHigh))
    ensures r.engine == f.engine.(nextEdge := erta)
    ensures r.status == f.status && r.config == f.config && r.ram == f.ram
  {
    var t := After(erta, f.config.timing.tSuSto);
    f.(engine := f.engine.(nextEdge := erta),
       channels := f.channels.(sclInEnabled := false, sclInFlags := BITS, sclOutEnabled := true),
       matches := Matches(Match(t, PinHigh), Match(t, PinHigh), Match(t, PinHigh)))
  }

  /** `FinishStop`: the STOP is complete; the master is free and the host is interrupted. */
  function FinishStopStep(f: Frame): (r: Frame)
    ensures r.status == f.status.(inUse := false)
    ensures r.channels == f.channels.(sclOutFlags := BITS, interrupt := true)
    ensures r.engine == f.engine && r.config == f.config && r.ram == f.ram && r.matches == f.matches
  {
    f.(status := f.status.(inUse := false),
       channels := f.channels.(sclOutFlags := BITS, interrupt := true))
  }

  /**
   * `FinishRepeatedStart`: SCL rose with SDA released after a command. SDA is
   * pulled low tSU_STA later, a repeated START, and the SCL_out match at that
   * time begins the clock of the next header.
   */
  function FinishRepeatedStartStep(f: Frame, erta: bv24): (r: Frame)
    ensures var t := After(erta, f.config.timing.tSuSta);
      r.matches == Matches(Match(t, NoChange), Match(t, NoChange), Match(t, PinLow))
      && r.engine == f.engine.(nextEdge := t, startFlag := true)
    ensures r.channels == f.channels.(sclInFlags := BITS, sclOutFlags := BITS)
    ensures r.status == f.status && r.config == f.config && r.ram == f.ram
  {
    var t := After(erta, f.config.timing.tSuSta);
    f.(engine := f.engine.(nextEdge := t, startFlag := true),
       channels := f.channels.(sclInFlags := BITS, sclOutFlags := BITS),
       matches := Matches(Match(t, NoChange), Match(t, NoChange), Match(t, PinLow)))
  }

  /** What wakes a master thread. */
  datatype Event =
    | SclInRise(erta: bv24, sdaHigh: bool)    // SCL_in captured a rising edge; SDA_in reads `sdaHigh`
    | SclOutMatch(erta: bv24, sdaHigh: bool)  // both SCL_out matches fired, match A at `erta`
    | Link                                    // the link from SCL_in to SCL_out
    | StartRequest(now: bv24)                 // host service request 4 on SCL_out, at TCR1 time `now`
    | LatchRequest                            // host service request 4 on SCL_in
    | InitRequest                             // host service request 7 on all channels
    | ShutdownRequest                         // host service request 2 on all channels

  /**
   * The SCL_in entry table: a rising edge runs the thread its flags select
   * (data bit, ACK, repeated START, STOP), unless its event handling is off.
   */
  function SclInThread(f: Frame, erta: bv24, sdaHigh: bool): (r: Frame)
    ensures r.config == f.config && r.status.inUse == f.status.inUse
    ensures KeepsFlags(f.status.errorFlags, r.status.errorFlags)
    ensures r.ram != f.ram ==> f.channels.sclInEnabled && f.channels.sclInFlags == ACK && f.engine.reading
  {
    if !f.channels.sclInEnabled then f
    else if f.channels.sclInFlags == BITS then PulseClockStep(f, erta, sdaHigh)
    else if f.channels.sclInFlags == ACK then
      WithFlagKeeps(f.status.errorFlags, MASTER_ACK_FAILED);
      ProcessAckStep(f, erta, sdaHigh)
    else if f.channels.sclInFlags == REPEATED_START then FinishRepeatedStartStep(f, erta)
    else BeginStopStep(f, erta)
  }

  /**
   * The SCL_out entry table for a match: the first clock cycle after a START
   * in the data-bit state, the end of the STOP in the STOP state; in the ACK
   * and repeated-START states the match only clears latches.
   */
  function SclOutThread(f: Frame, erta: bv24, sdaHigh: bool): (r: Frame)
    ensures r.config == f.config && r.ram == f.ram
    ensures r.status.errorFlags == f.status.errorFlags
    ensures r.status.inUse != f.status.inUse ==>
      f.status.inUse && f.channels.sclOutEnabled && f.channels.sclOutFlags == STOP
  {
    if !f.channels.sclOutEnabled then f
    else if f.channels.sclOutFlags == BITS then PulseClockIgnoreStep(f, erta, sdaHigh)
    else if f.channels.sclOutFlags == STOP then FinishStopStep(f)
    else f
  }

  /**
   * The entry tables of the four channels: the thread an event runs. Threads
   * never change the host's configuration; error flags only accumulate until
   * the host latches them; only a start request takes the master into use and
   * only the end of a STOP frees it; only the ACK thread of a read byte
   * writes the data RAM.
   */
  function MasterStep(f: Frame, ev: Event): (r: Frame)
    ensures r.config == f.config
    ensures ev != LatchRequest ==> KeepsFlags(f.status.errorFlags, r.status.errorFlags)
    ensures !f.status.inUse && r.status.inUse ==> ev.StartRequest?
    ensures f.status.inUse && !r.status.inUse ==>
      ev.SclOutMatch? && f.channels.sclOutEnabled && f.channels.sclOutFlags == STOP
    ensures r.ram != f.ram ==>
      ev.SclInRise? && f.channels.sclInEnabled && f.channels.sclInFlags == ACK && f.engine.reading
  {
    match ev
    case SclInRise(erta, sdaHigh) => SclInThread(f, erta, sdaHigh)
    case SclOutMatch(erta, sdaHigh) => SclOutThread(f, erta, sdaHigh)
    case Link =>
      if f.channels.linkPending then AckStep2(f) else f
    case StartRequest(now) =>
      WithFlagKeeps(f.status.errorFlags, MASTER_BUSY);
      StartTransferStep(f, now)
    case LatchRequest => LatchAndClearStep(f)
    case InitRequest => InitStep(f)
    case ShutdownRequest => ShutdownStep(f)
  }

  /**
   * The master's channel frame, channel state and data RAM. Each method is one
   * thread of the engine; `erta` is the captured or matched time the thread
   * reads and `sdaHigh` the SDA_in pin it samples.
   */
  class I2CMaster {
    var engine: Engine
    var config: MasterConfig
    var status: Status
    var channels: Channels
    var matches: Matches
    /** The eTPU data RAM holding the transfer buffers. */
    const ram: array<bv8>

    /** All of the state, as a value. */
    ghost function Snap(): Frame
      reads this, ram
    {
      Frame(engine, config, status, channels, matches, ram[..])
    }

    /** A zeroed channel frame over data RAM `ram`, as the host allocates it. */
    constructor(ram: array<bv8>)
      ensures this.ram == ram
      ensures Snap() == Frame(Engine(0, 0, false, 0, 0, 0, 0, 0, 0, false, false),
                              MasterConfig(Timing(0, 0, 0, 0, 0, 0, 0), [], 0),
                              Status(false, 0, 0),
                              Channels(BITS, BITS, false, false, High, High, false, false, false, false),
                              Matches(Match(0, NoChange), Match(0, NoChange), Match(0, NoChange)),
                              ram[..])
    {
      this.ram := ram;
      engine := Engine(0, 0, false, 0, 0, 0, 0, 0, 0, false, false);
      config := MasterConfig(Timing(0, 0, 0, 0, 0, 0, 0), [], 0);
      status := Status(false, 0, 0);
      channels := Channels(BITS, BITS, false, false, High, High, false, false, false, false);
      matches := Matches(Match(0, NoChange), Match(0, NoChange), Match(0, NoChange));
    }

    method Init()
      modifies this
      ensures Snap() == InitStep(old(Snap()))
    {
      matches := Matches(Disarmed(matches.sclA), Disarmed(matches.sclB), Disarmed(matches.sda));
      channels := channels.(sclOut := High, sclOutEnabled := true, sclOutFlags := BITS);
      channels := channels.(sclInEnabled := false, sclInFlags := BITS);
      channels := channels.(sdaOut := High);
    }

    method Shutdown()
      modifies this
      ensures Snap() == ShutdownStep(old(Snap()))
    {
      channels := channels.(sclOutEnabled := false, sclInEnabled := false, sclOut := High, sdaOut := High);
    }

    method LatchAndClearErrorFlags()
      modifies this
      ensures Snap() == LatchAndClearStep(old(Snap()))
    {
      channels := channels.(latchRequest := false);
      status := status.(latchedErrorFlags := status.errorFlags);
      status := status.(errorFlags := 0);
    }

    /** Loads command `i` into the working registers. */
    method LoadCommandAt(i: nat)
      modifies this
      ensures Snap() == LoadCommand(old(Snap()), i)
    {
      var c := CommandAt(config.commands, i);
      engine := engine.(current := i, workingByte := HeaderWord(c.header), bitCount := 8);
      engine := engine.(workingPtr := c.buffer, bufReading := HeaderIsRead(c.header));
      engine := engine.(bufSize := c.size, remaining := c.size, reading := false);
    }

    method StartTransfer(now: bv24)
      modifies this
      ensures Snap() == StartTransferStep(old(Snap()), now)
    {
      channels := channels.(startRequest := false);
      if status.inUse {
        status := status.(errorFlags := WithFlag(status.errorFlags, MASTER_BUSY));
        channels := channels.(interrupt := true);
        return;
      }
      status := status.(inUse := true);
      engine := engine.(startFlag := true, sentCnt := 0);
      LoadCommandAt(0);
      var t := After(now, config.timing.tBuf);
      matches := matches.(sclA := Match(t, NoChange), sclB := Match(t, NoChange));
      engine := engine.(nextEdge := t);
      channels := channels.(sclInEnabled := true);
      matches := matches.(sda := Match(t, PinLow));
    }

    /** Schedules one SCL cycle from the rising edge at `from`. */
    method ScheduleClock(from: bv24)
      modifies this
      ensures Snap() == ClockCycle(old(Snap()), from)
    {
      var fall := After(from, config.timing.tHigh);
      var rise := After(fall, config.timing.tLow);
      matches := matches.(sclA := Match(fall, PinLow), sclB := Match(rise, PinHigh));
      engine := engine.(nextEdge := rise);
    }

    /** The ACK-slot half of `PulseClock`. */
    method AckSlot(dataTime: bv24, sdaHigh: bool)
      modifies this
      ensures Snap() == BeginAckSlot(old(Snap()), dataTime, sdaHigh)
    {
      ghost var g := Snap();
      channels := channels.(sclInFlags := channels.sclInFlags.(f0 := true), sclOutFlags := channels.sclOutFlags.(f0 := true));
      ghost var h := Snap();
      assert h == g.(channels := h.channels);
      if !engine.reading {
        matches := matches.(sda := Match(dataTime, Drives(High)));
        assert Snap() == DriveSda(h, dataTime, High);
      } else {
        var level := if engine.remaining > 0 then Low else High;
        engine := engine.(workingByte := ShiftIn(engine.workingByte, sdaHigh));
        ghost var k := Snap();
        matches := matches.(sda := Match(dataTime, Drives(level)));
        assert Snap() == DriveSda(k, dataTime, level);
      }
    }

    /** The data-bit half of `PulseClock`. */
    method DataBit(dataTime: bv24, sdaHigh: bool)
      requires engine.bitCount > 0
      modifies this
      ensures Snap() == NextBit(old(Snap()), dataTime, sdaHigh)
    {
      engine := engine.(bitCount := engine.bitCount - 1);
      if !engine.reading {
        var carry := TopBit(engine.workingByte);
        engine := engine.(workingByte := Shl1(engine.workingByte));
        matches := matches.(sda := Match(dataTime, Drives(LevelOf(carry))));
      } else {
        engine := engine.(workingByte := ShiftIn(engine.workingByte, sdaHigh));
      }
    }

    method PulseClock(erta: bv24, sdaHigh: bool)
      modifies this
      ensures Snap() == PulseClockStep(old(Snap()), erta, sdaHigh)
    {
      ghost var f := Snap();
      var from := engine.nextEdge;
      if Lags(erta, engine.nextEdge, config.timing.trMax) {
        from := erta;
      }
      var dataTime := After(After(from, config.timing.tHigh), config.timing.tHdDat);
      ScheduleClock(from);
      ghost var g := Snap();
      assert g == ClockCycle(f, Resync(erta, f.engine.nextEdge, f.config.timing.trMax));
      if engine.bitCount == 0 {
        AckSlot(dataTime, sdaHigh);
        assert Snap() == BeginAckSlot(g, dataTime, sdaHigh);
      } else {
        DataBit(dataTime, sdaHigh);
        assert Snap() == NextBit(g, dataTime, sdaHigh);
      }
    }

    method PulseClockIgnore(erta: bv24, sdaHigh: bool)
      modifies this
      ensures Snap() == PulseClockIgnoreStep(old(Snap()), erta, sdaHigh)
    {
      if engine.startFlag {
        engine := engine.(startFlag := false);
        PulseClock(erta, sdaHigh);
      }
    }

    /** Stores the byte just read and advances the buffer pointer. */
    method StoreReceivedByte()
      modifies this, ram
      ensures Snap() == StoreReceived(old(Snap()))
    {
      if engine.workingPtr < ram.Length {
        ram[engine.workingPtr] := Low8(engine.workingByte);
      }
      engine := engine.(workingPtr := engine.workingPtr + 1);
    }

    method ProcessAck(erta: bv24, sdaHigh: bool)
      modifies this, ram
      ensures Snap() == ProcessAckStep(old(Snap()), erta, sdaHigh)
    {
      ghost var f := Snap();
      engine := engine.(nextEdge := Resync(erta, engine.nextEdge, config.timing.trMax));
      channels := channels.(linkPending := true);
      ghost var g := Snap();
      assert g == f.(engine := f.engine.(nextEdge := Resync(erta, f.engine.nextEdge, f.config.timing.trMax)),
                     channels := f.channels.(linkPending := true));
      if AckChecked(engine) {
        if sdaHigh {
          status := status.(errorFlags := WithFlag(status.errorFlags, MASTER_ACK_FAILED));
          engine := engine.(remaining := 0);
          assert Snap() == g.(engine := g.engine.(remaining := 0),
                              status := g.status.(errorFlags := WithFlag(g.status.errorFlags, MASTER_ACK_FAILED)));
        }
      } else if engine.reading {
        StoreReceivedByte();
        assert Snap() == StoreReceived(g);
      }
    }

    /** The next byte of the buffer begins. */
    method NextByte(dataTime: bv24)
      requires engine.remaining > 0
      modifies this
      ensures Snap() == StartNextByte(old(Snap()), dataTime)
    {
      channels := channels.(sclOutFlags := channels.sclOutFlags.(f0 := false),
                            sclInFlags := channels.sclInFlags.(f0 := false));
      engine := engine.(reading := engine.bufReading, remaining := engine.remaining - 1, bitCount := 7);
      ghost var h := Snap();
      if !engine.reading {
        var b := if engine.workingPtr < ram.Length then ram[engine.workingPtr] else 0;
        assert b == Load(h.ram, engine.workingPtr);
        engine := engine.(workingByte := DataWord(b), workingPtr := engine.workingPtr + 1);
        ghost var k := Snap();
        matches := matches.(sda := Match(dataTime, Drives(LevelOf(MsbOf(b)))));
        assert Snap() == DriveSda(k, dataTime, LevelOf(MsbOf(b)));
      } else {
        matches := matches.(sda := Match(dataTime, Drives(High)));
        assert Snap() == DriveSda(h, dataTime, High);
      }
    }

    /** The next command follows after a repeated START. */
    method NextCommand(dataTime: bv24)
      modifies this
      ensures Snap() == StartNextCommand(old(Snap()), dataTime)
    {
      engine := engine.(sentCnt := engine.sentCnt + 1);
      channels := channels.(sclOutFlags := REPEATED_START);
      matches := matches.(sda := Match(dataTime, PinHigh));
      channels := channels.(sclInFlags := REPEATED_START);
      ghost var h := Snap();
      LoadCommandAt(engine.current + 1);
      assert Snap() == LoadCommand(h, h.engine.current + 1);
    }

    /** The last command is done; SDA goes low ahead of the STOP. */
    method StopNext(dataTime: bv24)
      modifies this
      ensures Snap() == PrepareStop(old(Snap()), dataTime)
    {
      engine := engine.(sentCnt := engine.sentCnt + 1);
      channels := channels.(sclOutFlags := channels.sclOutFlags.(f1 := true), sclOutEnabled := false);
      matches := matches.(sda := Match(dataTime, PinLow));
      channels := channels.(sclInFlags := channels.sclInFlags.(f1 := true));
    }

    /** The three ways on after the ACK slot, once the clock cycle is scheduled. */
    method Continue(dataTime: bv24)
      modifies this
      ensures Snap() == ContinueAfterAck(old(Snap()), dataTime)
    {
      if engine.remaining > 0 {
        NextByte(dataTime);
      } else if engine.sentCnt + 1 < config.cmdCnt {
        NextCommand(dataTime);
      } else {
        StopNext(dataTime);
      }
    }

    method ProcessAckStep2()
      modifies this
      ensures Snap() == AckStep2(old(Snap()))
    {
      channels := channels.(linkPending := false);
      var dataTime := After(After(engine.nextEdge, config.timing.tHigh), config.timing.tHdDat);
      ScheduleClock(engine.nextEdge);
      Continue(dataTime);
    }

    method BeginStop(erta: bv24)
      modifies this
      ensures Snap() == BeginStopStep(old(Snap()), erta)
    {
      channels := channels.(sclInEnabled := false, sclInFlags := BITS);
      engine := engine.(nextEdge := erta);
      channels := channels.(sclOutEnabled := true);
      var t := After(engine.nextEdge, config.timing.tSuSto);
      matches := Matches(Match(t, PinHigh), Match(t, PinHigh), Match(t, PinHigh));
    }

    method FinishStop()
      modifies this
      ensures Snap() == FinishStopStep(old(Snap()))
    {
      status := status.(inUse := false);
      channels := channels.(sclOutFlags := BITS, interrupt := true);
    }

    method FinishRepeatedStart(erta: bv24)
      modifies this
      ensures Snap() == FinishRepeatedStartStep(old(Snap()), erta)
    {
      channels := channels.(sclInFlags := BITS);
      engine := engine.(nextEdge := erta);
      var t := After(engine.nextEdge, config.timing.tSuSta);
      channels := channels.(sclOutFlags := BITS);
      matches := matches.(sclA := Match(t, NoChange), sclB := Match(t, NoChange));
      engine := engine.(nextEdge := t, startFlag := true);
      matches := matches.(sda := Match(t, PinLow));
    }
  }
}
