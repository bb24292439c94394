/**
 * The I2C slave engine. Four eTPU channels (SCL_in, SDA_in, SCL_out, SDA_out)
 * share one channel frame; every thread the engine runs on an edge, a match or
 * a host service request updates that frame in place.
 *
 * Each thread is specified by a step function on `Frame`, a value holding the
 * frame fields (grouped into the engine state, the host-written configuration
 * and the results the host reads), the state of the four channels and the
 * eTPU data RAM. The class `I2CSlave` holds the same state and runs the
 * threads step by step; each of its methods is proved to move the frame
 * exactly as its step function says.
 */
module SlaveEngine {
  import opened I2CCommon

  /** `I2C_SLAVE_MODE`: where the slave is in a transfer. */
  datatype Mode =
    | FindIdle | Idle | StartSdaLow | WriteHeader | WriteByte
    | WriteByteCheckStop | WriteByteCheckStop2 | ReadByte
    | ReadFindStop | ReadFindStop2 | AckOut | AckIn | AckComplete | Ignore

  /** The edge detection armed on an input channel. */
  datatype Detect = NoEdge | RisingEdge | FallingEdge | AnyEdge

  /** What a header byte means to this slave. */
  datatype HeaderOutcome = AddressedWrite | AddressedRead | StartByte | NotAddressed

  /** The frame fields the threads use to track a transfer. */
  datatype Engine = Engine(
    mode: Mode,
    workingByte: bv24,
    workingBitCnt: nat,
    workingByteCnt: nat,
    readMessage: bool,        // `_read_write_message`: true for a read
    workingPtr: nat,          // `_p_working_buf`, an address in the data RAM
    lastAck: bool,            // SDA level sampled in the ACK slot: true is a NACK
    idleDetect: nat)

  /** The configuration the host writes into the frame; the threads only read it. */
  datatype SlaveConfig = SlaveConfig(
    address: bv8,
    addressMask: bv8,
    acceptGeneralCall: bool,
    readBufferSize: nat,
    writeBufferSize: nat,
    readBuffer: nat,          // `_read_buffer`, an address in the data RAM
    writeBuffer: nat,         // `_write_buffer`, an address in the data RAM
    tSuDat: bv24,
    tBuf: bv24,
    dataWait: bool)           // function mode 0: hold SCL until the host signals data ready

  /** The frame fields the host reads back. */
  datatype Results = Results(
    header: bv8,
    byteCnt: nat,
    errorFlags: bv8,
    latchedErrorFlags: bv8)

  /** What the threads set on the four channels, and the pending host service requests. */
  datatype Channels = Channels(
    sclDetect: Detect,        // edge detection on SCL_in
    sdaDetect: Detect,        // edge detection on SDA_in
    sclOut: Level,
    sdaOut: Level,
    sclInInterrupt: bool,     // data request for the host
    sdaInInterrupt: bool,     // end of a transfer
    scheduled: seq<PinAction>,
    dataReadyRequest: bool,   // host service request "data ready" pending on SCL_out
    latchRequest: bool)       // host service request "latch and clear errors" pending on SCL_in

  /** The whole slave state: channel frame, channels and data RAM. */
  datatype Frame = Frame(
    engine: Engine,
    config: SlaveConfig,
    results: Results,
    channels: Channels,
    ram: seq<bv8>)

  /** A read byte as loaded into the working register: the byte in bits 23..16 and a 1 in bit 15. */
  function LoadForRead(b: bv8): bv24
  {
    HeaderWord(b) | 0x8000
  }

  /**
   * The meaning of a received header byte: addressed when its masked bits equal
   * the slave address, or when it is the general call address and general calls
   * are accepted, with bit 0 choosing the direction; otherwise the START byte is
   * recognised, and anything else is for another device.
   */
  function HeaderDecision(w: bv24, address: bv8, mask: bv8, acceptGeneralCall: bool): (r: HeaderOutcome)
    ensures (r == AddressedRead || r == AddressedWrite) <==>
      ((w & (mask as bv24)) == (address as bv24) || (w == 0 && acceptGeneralCall))
    ensures r == AddressedRead ==> IsRead(w)
    ensures r == AddressedWrite ==> !IsRead(w)
    ensures r == StartByte ==> w == START_BYTE as bv24
    ensures r == NotAddressed ==> w != START_BYTE as bv24
  {
    if (w & (mask as bv24)) == (address as bv24) || (w == 0 && acceptGeneralCall) then
      (if IsRead(w) then AddressedRead else AddressedWrite)
    else if w == START_BYTE as bv24 then
      StartByte
    else
      NotAddressed
  }

  /** Idle detection restarts: both lines must again stay quiet for tBUF. */
  function RestartIdleDetect(f: Frame): (r: Frame)
    ensures r.engine.mode == FindIdle && r.engine.idleDetect == 0
    ensures r.channels.sclDetect == AnyEdge && r.channels.sdaDetect == AnyEdge
    ensures r.results == f.results && r.config == f.config && r.ram == f.ram
  {
    f.(engine := f.engine.(mode := FindIdle, idleDetect := 0),
       channels := f.channels.(sclDetect := AnyEdge, sdaDetect := AnyEdge))
  }

  /** The init threads of the four channels: idle detection starts and both outputs are released. */
  function InitStep(f: Frame): (r: Frame)
    ensures r.engine.mode == FindIdle && r.engine.idleDetect == 0
    ensures r.channels.sclOut == High && r.channels.sdaOut == High
    ensures r.results == f.results && r.config == f.config && r.ram == f.ram
  {
    var g := RestartIdleDetect(f);
    g.(channels := g.channels.(sclOut := High, sdaOut := High))
  }

  /** `Shutdown`: event handling stops on every channel and both outputs are released. */
  function ShutdownStep(f: Frame): (r: Frame)
    ensures r.channels.sclDetect == NoEdge && r.channels.sdaDetect == NoEdge
    ensures r.channels.sclOut == High && r.channels.sdaOut == High
    ensures r.engine == f.engine && r.results == f.results && r.ram == f.ram
  {
    f.(channels := f.channels.(sclDetect := NoEdge, sdaDetect := NoEdge, sclOut := High, sdaOut := High))
  }

  /** `IdleDetectPass`: one line stayed quiet for tBUF; after both did, the bus is idle. */
  function IdleDetectPassStep(f: Frame): (r: Frame)
    ensures r.engine.idleDetect == f.engine.idleDetect + 1
    ensures r.engine.mode == (if r.engine.idleDetect >= 2 then Idle else f.engine.mode)
    ensures r.engine.idleDetect >= 2 ==>
      r.channels.sclDetect == FallingEdge && r.channels.sdaDetect == FallingEdge
    ensures r.engine.idleDetect < 2 ==> r.channels == f.channels
    ensures r.results == f.results && r.ram == f.ram
  {
    var n := f.engine.idleDetect + 1;
    if n >= 2 then
      f.(engine := f.engine.(idleDetect := n, mode := Idle),
         channels := f.channels.(sclDetect := FallingEdge, sdaDetect := FallingEdge))
    else
      f.(engine := f.engine.(idleDetect := n))
  }

  /** `IdleDetectFail`: a line was low when its tBUF match fired. */
  function IdleDetectFailStep(f: Frame): (r: Frame)
    ensures r.engine.mode == FindIdle && r.engine.idleDetect == 0
    ensures r.results == f.results && r.ram == f.ram
  {
    RestartIdleDetect(f)
  }

  /** `TransferStart_SDA`: SDA fell; a START only when SCL is high and the bus was idle. */
  function TransferStartSdaStep(f: Frame, sclHigh: bool): (r: Frame)
    ensures r.engine.mode == StartSdaLow <==> sclHigh && f.engine.mode == Idle
    ensures r.engine.mode != StartSdaLow ==> r.engine.mode == FindIdle && r.engine.idleDetect == 0
    ensures r.results == f.results && r.ram == f.ram
  {
    if !sclHigh || f.engine.mode != Idle then
      RestartIdleDetect(f)
    else
      f.(engine := f.engine.(mode := StartSdaLow), channels := f.channels.(sdaDetect := NoEdge))
  }

  /**
   * `TransferStart_SCL`: SCL fell. After SDA fell first this completes a START
   * and the header follows; otherwise idle detection restarts, and an SCL fall
   * on an idle bus is reported as an invalid START.
   */
  function TransferStartSclStep(f: Frame): (r: Frame)
    ensures f.engine.mode == StartSdaLow ==>
      r.engine.mode == WriteHeader && r.engine.workingBitCnt == 0 && r.engine.workingByteCnt == 0
      && r.engine.workingByte == 0 && !r.engine.lastAck
    ensures f.engine.mode != StartSdaLow ==> r.engine.mode == FindIdle && r.engine.idleDetect == 0
    ensures r.results.errorFlags ==
      (if f.engine.mode == Idle then WithFlag(f.results.errorFlags, SLAVE_INVALID_START) else f.results.errorFlags)
    ensures r.ram == f.ram
  {
    if f.engine.mode != StartSdaLow then
      var g :=
        if f.engine.mode == Idle then
          f.(results := f.results.(errorFlags := WithFlag(f.results.errorFlags, SLAVE_INVALID_START)))
        else f;
      RestartIdleDetect(g)
    else
      f.(engine := f.engine.(lastAck := false, mode := WriteHeader,
                             workingBitCnt := 0, workingByteCnt := 0, workingByte := 0),
         channels := f.channels.(sclDetect := RisingEdge))
  }

  /**
   * The eighth bit of a header has been shifted in: the slave acknowledges its
   * own address (or an accepted general call) and points at the buffer the
   * direction bit selects, acknowledges nothing but records a START byte, and
   * otherwise goes back to idle detection.
   */
  function MatchHeader(f: Frame): (r: Frame)
    ensures var d := HeaderDecision(f.engine.workingByte, f.config.address, f.config.addressMask,
                                    f.config.acceptGeneralCall);
      (d == AddressedRead ==> r.engine.mode == AckOut && r.engine.readMessage
                              && r.engine.workingPtr == f.config.readBuffer)
      && (d == AddressedWrite ==> r.engine.mode == AckOut && !r.engine.readMessage
                                  && r.engine.workingPtr == f.config.writeBuffer)
      && (d == StartByte ==> r.engine.mode == AckIn && r.engine.readMessage)
      && (d == NotAddressed <==> r.engine.mode == FindIdle)
      && (d != NotAddressed ==> r.results.header == Low8(f.engine.workingByte))
    ensures r.ram == f.ram && r.results.errorFlags == f.results.errorFlags
  {
    var w := f.engine.workingByte;
    match HeaderDecision(w, f.config.address, f.config.addressMask, f.config.acceptGeneralCall)
    case AddressedRead =>
      f.(engine := f.engine.(mode := AckOut, readMessage := true, workingPtr := f.config.readBuffer),
         results := f.results.(header := Low8(w)))
    case AddressedWrite =>
      f.(engine := f.engine.(mode := AckOut, readMessage := false, workingPtr := f.config.writeBuffer),
         results := f.results.(header := Low8(w)))
    case StartByte =>
      f.(engine := f.engine.(readMessage := true, mode := AckIn),
         results := f.results.(header := Low8(w)))
    case NotAddressed =>
      RestartIdleDetect(f)
  }

  /**
   * The eighth bit of a data byte has been shifted in: it is stored while the
   * write buffer has room and dropped with BUFFER_OVERFLOW past it, and is
   * acknowledged either way.
   */
  function StoreByte(f: Frame): (r: Frame)
    ensures r.engine.mode == AckOut && r.engine.workingByteCnt == f.engine.workingByteCnt + 1
    ensures r.engine.workingByteCnt <= f.config.writeBufferSize ==>
      r.ram == Store(f.ram, f.engine.workingPtr, Low8(f.engine.workingByte))
      && r.engine.workingPtr == f.engine.workingPtr + 1 && r.results == f.results
    ensures r.engine.workingByteCnt > f.config.writeBufferSize ==>
      r.ram == f.ram && r.engine.workingPtr == f.engine.workingPtr
      && r.results == f.results.(errorFlags := WithFlag(f.results.errorFlags, SLAVE_BUFFER_OVERFLOW))
  {
    var cnt := f.engine.workingByteCnt + 1;
    if cnt <= f.config.writeBufferSize then
      f.(engine := f.engine.(workingByteCnt := cnt, workingPtr := f.engine.workingPtr + 1, mode := AckOut),
         ram := Store(f.ram, f.engine.workingPtr, Low8(f.engine.workingByte)))
    else
      f.(engine := f.engine.(workingByteCnt := cnt, mode := AckOut),
         results := f.results.(errorFlags := WithFlag(f.results.errorFlags, SLAVE_BUFFER_OVERFLOW)))
  }

  /**
   * `DataBitReady`: SCL rose while the master sends. The SDA level is shifted
   * into the least significant bit and the bit count grows; on the eighth bit
   * the byte is evaluated. The first bit of a data byte also arms SDA to catch
   * a STOP or repeated START, and the following SCL rise ends that watch.
   */
  function DataBitReadyStep(f: Frame, sdaHigh: bool): (r: Frame)
    ensures f.engine.mode == WriteByteCheckStop2 ==>
      r.engine == f.engine.(mode := WriteByte) && r.channels.sdaDetect == NoEdge
    ensures f.engine.mode != WriteByteCheckStop2 && f.engine.workingBitCnt + 1 != 8 ==>
      r.engine.workingByte == ShiftIn(f.engine.workingByte, sdaHigh)
      && r.engine.workingBitCnt == f.engine.workingBitCnt + 1
      && r.engine.mode == (if f.engine.mode == WriteByteCheckStop then WriteByteCheckStop2 else f.engine.mode)
      && r.results == f.results && r.ram == f.ram
  {
    if f.engine.mode == WriteByteCheckStop2 then
      f.(engine := f.engine.(mode := WriteByte),
         channels := f.channels.(sclDetect := RisingEdge, sdaDetect := NoEdge))
    else
      var w := ShiftIn(f.engine.workingByte, sdaHigh);
      var n := f.engine.workingBitCnt + 1;
      var g :=
        if f.engine.mode == WriteByteCheckStop then
          f.(engine := f.engine.(mode := WriteByteCheckStop2, workingByte := w, workingBitCnt := n),
             channels := f.channels.(sclDetect := FallingEdge, sdaDetect := AnyEdge))
        else
          f.(engine := f.engine.(workingByte := w, workingBitCnt := n));
      if n == 8 then
        var h := g.(channels := g.channels.(sclDetect := FallingEdge));
        if h.engine.mode == WriteHeader then MatchHeader(h) else StoreByte(h)
      else g
  }

  /**
   * `OutputDataBit`: SCL fell while the slave sends. The carry of a one-place
   * shift of the working register is driven on SDA; after the ninth level the
   * slave waits for the master's ACK. After a NACK the first SCL rise starts the
   * watch for STOP or repeated START, and an SCL fall during it is STOP_FAILED.
   */
  function OutputDataBitStep(f: Frame): (r: Frame)
    ensures f.engine.mode == ReadFindStop ==>
      r.engine.mode == ReadFindStop2 && r.channels.sdaDetect == AnyEdge
    ensures f.engine.mode == ReadFindStop2 ==>
      r.engine.mode == FindIdle && r.channels.sdaInInterrupt
      && r.results.errorFlags == WithFlag(f.results.errorFlags, SLAVE_STOP_FAILED)
    ensures f.engine.mode != ReadFindStop && f.engine.mode != ReadFindStop2 ==>
      r.channels.sdaOut == LevelOf(TopBit(f.engine.workingByte))
      && r.engine.workingByte == Shl1(f.engine.workingByte)
      && r.engine.workingBitCnt == f.engine.workingBitCnt + 1
      && r.engine.mode == (if r.engine.workingBitCnt == 9 then AckIn else f.engine.mode)
      && r.results == f.results
    ensures r.ram == f.ram
  {
    if f.engine.mode == ReadFindStop then
      f.(engine := f.engine.(mode := ReadFindStop2),
         channels := f.channels.(sclDetect := FallingEdge, sdaDetect := AnyEdge))
    else if f.engine.mode == ReadFindStop2 then
      RestartIdleDetect(f.(results := f.results.(errorFlags := WithFlag(f.results.errorFlags, SLAVE_STOP_FAILED)),
                           channels := f.channels.(sdaInInterrupt := true)))
    else
      var n := f.engine.workingBitCnt + 1;
      var g := f.(engine := f.engine.(workingByte := Shl1(f.engine.workingByte), workingBitCnt := n),
                  channels := f.channels.(sdaOut := LevelOf(TopBit(f.engine.workingByte))));
      if n == 9 then
        g.(engine := g.engine.(mode := AckIn), channels := g.channels.(sclDetect := RisingEdge))
      else g
  }

  /** Whether the end of an ACK slot holds SCL low for the host to supply read data. */
  predicate HoldsForData(f: Frame)
  {
    f.config.dataWait && f.engine.workingByteCnt == 0 && f.engine.readMessage
    && f.results.header != START_BYTE
  }

  /**
   * The end of an ACK slot on a read: after a NACK the slave looks for STOP or
   * repeated START; after an ACK it loads the next byte while the read buffer
   * has data and 0x00 with BUFFER_OVERFLOW past it, and drives its first bit.
   */
  function NextReadByte(f: Frame): (r: Frame)
    ensures f.engine.lastAck ==> r.engine.mode == ReadFindStop && r.results == f.results
    ensures !f.engine.lastAck ==>
      r.engine.mode == ReadByte && r.engine.workingBitCnt == 1
      && r.engine.workingByteCnt == f.engine.workingByteCnt + 1
      && r.channels.sdaOut ==
           (if r.engine.workingByteCnt <= f.config.readBufferSize
            then LevelOf(Load(f.ram, f.engine.workingPtr) & 0x80 != 0) else Low)
      && r.results.errorFlags ==
           (if r.engine.workingByteCnt <= f.config.readBufferSize
            then f.results.errorFlags else WithFlag(f.results.errorFlags, SLAVE_BUFFER_OVERFLOW))
    ensures r.ram == f.ram
  {
    if f.engine.lastAck then
      f.(engine := f.engine.(mode := ReadFindStop), channels := f.channels.(sclDetect := RisingEdge))
    else
      var cnt := f.engine.workingByteCnt + 1;
      var g :=
        if cnt <= f.config.readBufferSize then
          f.(engine := f.engine.(mode := ReadByte, workingBitCnt := 0, workingByteCnt := cnt,
                                 workingByte := LoadForRead(Load(f.ram, f.engine.workingPtr)),
                                 workingPtr := f.engine.workingPtr + 1))
        else
          f.(engine := f.engine.(mode := ReadByte, workingBitCnt := 0, workingByteCnt := cnt,
                                 workingByte := 0x8000),
             results := f.results.(errorFlags := WithFlag(f.results.errorFlags, SLAVE_BUFFER_OVERFLOW)));
      OutputDataBitStep(g)
  }

  /**
   * `HandleAck`: the ACK slot. The slave pulls SDA low to acknowledge, or
   * samples the master's ACK; when the slot ends, a write continues with the
   * next byte and a read with `NextReadByte`, after holding SCL low in
   * data-wait mode on the first byte of a read.
   */
  function HandleAckStep(f: Frame, sdaHigh: bool): (r: Frame)
    ensures f.engine.mode == AckOut ==>
      r.engine.mode == AckComplete && r.channels.sdaOut == Low
    ensures f.engine.mode == AckIn ==>
      r.engine.mode == AckComplete && r.engine.lastAck == sdaHigh
    ensures f.engine.mode != AckOut && f.engine.mode != AckIn ==>
      (r.channels.sclOut == Low <==> HoldsForData(f) || f.channels.sclOut == Low)
      && (r.channels.sclInInterrupt <==> HoldsForData(f) || f.channels.sclInInterrupt)
    ensures f.engine.mode != AckOut && f.engine.mode != AckIn && !f.engine.readMessage ==>
      r.engine.mode == WriteByteCheckStop && r.engine.workingBitCnt == 0
      && r.engine.workingByte == 0 && r.channels.sdaOut == High
    ensures f.engine.mode != AckOut && f.engine.mode != AckIn && f.engine.readMessage ==>
      r.engine.mode == (if f.engine.lastAck then ReadFindStop else ReadByte)
    ensures r.ram == f.ram
  {
    if f.engine.mode == AckOut then
      f.(engine := f.engine.(mode := AckComplete), channels := f.channels.(sdaOut := Low))
    else if f.engine.mode == AckIn then
      f.(engine := f.engine.(lastAck := sdaHigh, mode := AckComplete),
         channels := f.channels.(sclDetect := FallingEdge))
    else
      var g :=
        if HoldsForData(f) then f.(channels := f.channels.(sclInInterrupt := true, sclOut := Low))
        else f;
      if !g.engine.readMessage then
        g.(engine := g.engine.(mode := WriteByteCheckStop, workingBitCnt := 0, workingByte := 0),
           channels := g.channels.(sclDetect := RisingEdge, sdaOut := High))
      else
        NextReadByte(g)
  }

  /** `FoundStop`: SDA rose during the watch; with SCL high this is a STOP. */
  function FoundStopStep(f: Frame, sclHigh: bool): (r: Frame)
    ensures r.results.byteCnt == f.engine.workingByteCnt && r.channels.sdaInInterrupt
    ensures sclHigh ==> r.engine.mode == Idle && r.results.errorFlags == f.results.errorFlags
    ensures !sclHigh ==>
      r.engine.mode == FindIdle && r.results.errorFlags == WithFlag(f.results.errorFlags, SLAVE_STOP_FAILED)
    ensures r.ram == f.ram
  {
    var g := f.(results := f.results.(byteCnt := f.engine.workingByteCnt),
                channels := f.channels.(sdaInInterrupt := true, sdaDetect := FallingEdge));
    if !sclHigh then
      RestartIdleDetect(g.(results := g.results.(errorFlags := WithFlag(g.results.errorFlags, SLAVE_STOP_FAILED))))
    else
      g.(engine := g.engine.(mode := Idle), channels := g.channels.(sclDetect := FallingEdge))
  }

  /** `FoundRepeatedStart`: SDA fell during the watch; with SCL high this is a repeated START. */
  function FoundRepeatedStartStep(f: Frame, sclHigh: bool): (r: Frame)
    ensures r.results.byteCnt == f.engine.workingByteCnt && r.channels.sdaInInterrupt
    ensures sclHigh ==> r.engine.mode == StartSdaLow && r.results.errorFlags == f.results.errorFlags
    ensures !sclHigh ==>
      r.engine.mode == FindIdle && r.results.errorFlags == WithFlag(f.results.errorFlags, SLAVE_INVALID_START)
    ensures r.ram == f.ram
  {
    var g := f.(results := f.results.(byteCnt := f.engine.workingByteCnt),
                channels := f.channels.(sdaDetect := NoEdge, sdaInInterrupt := true));
    if !sclHigh then
      RestartIdleDetect(g.(results := g.results.(errorFlags := WithFlag(g.results.errorFlags, SLAVE_INVALID_START))))
    else
      g.(engine := g.engine.(mode := StartSdaLow), channels := g.channels.(sclDetect := FallingEdge))
  }

  /**
   * `ReadDataReady`: the host has filled the read buffer. The working register
   * is reloaded from the start of the buffer, SCL is released tSU_DAT after
   * `now`, and the first bit is driven again.
   */
  function ReadDataReadyStep(f: Frame, now: bv24): (r: Frame)
    ensures r.channels.scheduled == f.channels.scheduled + [Drive(SCL, After(now, f.config.tSuDat), High)]
    ensures !r.channels.dataReadyRequest
    ensures f.engine.mode != ReadFindStop && f.engine.mode != ReadFindStop2 ==>
      r.channels.sdaOut == LevelOf(Load(f.ram, f.config.readBuffer) & 0x80 != 0)
      && r.engine.workingPtr == f.config.readBuffer + 1 && r.engine.workingBitCnt == 1
    ensures r.ram == f.ram
  {
    OutputDataBitStep(ReloadReadBuffer(f, now))
  }

  /** The first half of `ReadDataReady`: the reload and the scheduled SCL release. */
  function ReloadReadBuffer(f: Frame, now: bv24): (r: Frame)
  {
    f.(engine := f.engine.(workingBitCnt := 0, workingPtr := f.config.readBuffer + 1,
                           workingByte := LoadForRead(Load(f.ram, f.config.readBuffer))),
       channels := f.channels.(scheduled := f.channels.scheduled + [Drive(SCL, After(now, f.config.tSuDat), High)],
                               dataReadyRequest := false))
  }

  /** `LatchAndClearErrorFlags`: the running error flags move to the latched copy. */
  function LatchAndClearStep(f: Frame): (r: Frame)
    ensures r.results.latchedErrorFlags == f.results.errorFlags && r.results.errorFlags == 0
    ensures r.engine == f.engine && r.config == f.config && r.ram == f.ram
    ensures !r.channels.latchRequest
  {
    f.(results := f.results.(latchedErrorFlags := f.results.errorFlags, errorFlags := 0),
       channels := f.channels.(latchRequest := false))
  }

  /** The slave channel frame and its four channels, updated in place by the threads. */
  class I2CSlave {
    var engine: Engine
    var config: SlaveConfig
    var results: Results
    var channels: Channels
    /** The eTPU data RAM holding the read and write buffers. */
    const ram: array<bv8>

    /** All of the state, as a value. */
    ghost function Snap(): Frame
      reads this, ram
    {
      Frame(engine, config, results, channels, ram[..])
    }

    /** A zeroed channel frame over data RAM `ram`, as the host allocates it. */
    constructor(ram: array<bv8>)
      ensures this.ram == ram
      ensures Snap() == Frame(Engine(FindIdle, 0, 0, 0, false, 0, false, 0),
                              SlaveConfig(0, 0, false, 0, 0, 0, 0, 0, 0, false),
                              Results(0, 0, 0, 0),
                              Channels(NoEdge, NoEdge, High, High, false, false, [], false, false),
                              ram[..])
    {
      this.ram := ram;
      engine := Engine(FindIdle, 0, 0, 0, false, 0, false, 0);
      config := SlaveConfig(0, 0, false, 0, 0, 0, 0, 0, 0, false);
      results := Results(0, 0, 0, 0);
      channels := Channels(NoEdge, NoEdge, High, High, false, false, [], false, false);
    }

    /** Idle detection starts over (the shared tail of every failed check). */
    method RestartIdle()
      modifies this
      ensures Snap() == RestartIdleDetect(old(Snap()))
    {
      engine := engine.(mode := FindIdle, idleDetect := 0);
      channels := channels.(sclDetect := AnyEdge, sdaDetect := AnyEdge);
    }

    method Init()
      modifies this
      ensures Snap() == InitStep(old(Snap()))
    {
      RestartIdle();
      channels := channels.(sclOut := High, sdaOut := High);
    }

    method Shutdown()
      modifies this
      ensures Snap() == ShutdownStep(old(Snap()))
    {
      channels := channels.(sclDetect := NoEdge, sdaDetect := NoEdge, sclOut := High, sdaOut := High);
    }

    method IdleDetectPass()
      modifies this
      ensures Snap() == IdleDetectPassStep(old(Snap()))
    {
      engine := engine.(idleDetect := engine.idleDetect + 1);
      if engine.idleDetect >= 2 {
        engine := engine.(mode := Idle);
        channels := channels.(sclDetect := FallingEdge, sdaDetect := FallingEdge);
      }
    }

    method IdleDetectFail()
      modifies this
      ensures Snap() == IdleDetectFailStep(old(Snap()))
    {
      RestartIdle();
    }

    method TransferStartSda(sclHigh: bool)
      modifies this
      ensures Snap() == TransferStartSdaStep(old(Snap()), sclHigh)
    {
      channels := channels.(sdaDetect := NoEdge);
      if !sclHigh || engine.mode != Idle {
        RestartIdle();
        return;
      }
      engine := engine.(mode := StartSdaLow);
    }

    method TransferStartScl()
      modifies this
      ensures Snap() == TransferStartSclStep(old(Snap()))
    {
      if engine.mode != StartSdaLow {
        if engine.mode == Idle {
          results := results.(errorFlags := WithFlag(results.errorFlags, SLAVE_INVALID_START));
        }
        RestartIdle();
        return;
      }
      channels := channels.(sclDetect := RisingEdge);
      engine := engine.(lastAck := false, mode := WriteHeader);
      engine := engine.(workingBitCnt := 0, workingByteCnt := 0, workingByte := 0);
    }

    /** The header half of the eighth-bit handling in `DataBitReady`. */
    method MatchHeaderByte()
      modifies this
      ensures Snap() == MatchHeader(old(Snap()))
    {
      var w := engine.workingByte;
      var decision := HeaderDecision(w, config.address, config.addressMask, config.acceptGeneralCall);
      if decision == AddressedRead || decision == AddressedWrite {
        engine := engine.(mode := AckOut);
        results := results.(header := Low8(w));
        engine := engine.(readMessage := IsRead(w));
        if engine.readMessage {
          engine := engine.(workingPtr := config.readBuffer);
        } else {
          engine := engine.(workingPtr := config.writeBuffer);
        }
      } else if decision == StartByte {
        results := results.(header := Low8(w));
        engine := engine.(readMessage := true, mode := AckIn);
      } else {
        RestartIdle();
      }
    }

    /** The data half of the eighth-bit handling in `DataBitReady`. */
    method StoreDataByte()
      modifies this, ram
      ensures Snap() == StoreByte(old(Snap()))
    {
      engine := engine.(workingByteCnt := engine.workingByteCnt + 1);
      if engine.workingByteCnt <= config.writeBufferSize {
        if engine.workingPtr < ram.Length {
          ram[engine.workingPtr] := Low8(engine.workingByte);
        }
        engine := engine.(workingPtr := engine.workingPtr + 1);
      } else {
        results := results.(errorFlags := WithFlag(results.errorFlags, SLAVE_BUFFER_OVERFLOW));
      }
      engine := engine.(mode := AckOut);
    }

    method DataBitReady(sdaHigh: bool)
      modifies this, ram
      ensures Snap() == DataBitReadyStep(old(Snap()), sdaHigh)
    {
      if engine.mode == WriteByteCheckStop2 {
        engine := engine.(mode := WriteByte);
        channels := channels.(sclDetect := RisingEdge, sdaDetect := NoEdge);
        return;
      }
      var n := engine.workingBitCnt + 1;
      engine := engine.(workingByte := ShiftIn(engine.workingByte, sdaHigh), workingBitCnt := n);
      if engine.mode == WriteByteCheckStop {
        engine := engine.(mode := WriteByteCheckStop2);
        channels := channels.(sclDetect := FallingEdge, sdaDetect := AnyEdge);
      }
      if n == 8 {
        channels := channels.(sclDetect := FallingEdge);
        ghost var h := Snap();
        if engine.mode == WriteHeader {
          MatchHeaderByte();
          assert Snap() == MatchHeader(h);
        } else {
          StoreDataByte();
          assert Snap() == StoreByte(h);
        }
      }
    }

    method OutputDataBit()
      modifies this
      ensures Snap() == OutputDataBitStep(old(Snap()))
    {
      if engine.mode == ReadFindStop {
        engine := engine.(mode := ReadFindStop2);
        channels := channels.(sclDetect := FallingEdge, sdaDetect := AnyEdge);
        return;
      } else if engine.mode == ReadFindStop2 {
        results := results.(errorFlags := WithFlag(results.errorFlags, SLAVE_STOP_FAILED));
        channels := channels.(sdaInInterrupt := true);
        RestartIdle();
        return;
      }
      var carry := TopBit(engine.workingByte);
      var n := engine.workingBitCnt + 1;
      engine := engine.(workingByte := Shl1(engine.workingByte), workingBitCnt := n);
      channels := channels.(sdaOut := LevelOf(carry));
      if n == 9 {
        engine := engine.(mode := AckIn);
        channels := channels.(sclDetect := RisingEdge);
      }
    }

    /** The read half of the end of an ACK slot. */
    method LoadNextReadByte()
      modifies this
      ensures Snap() == NextReadByte(old(Snap()))
    {
      if engine.lastAck {
        channels := channels.(sclDetect := RisingEdge);
        engine := engine.(mode := ReadFindStop);
        return;
      }
      engine := engine.(mode := ReadByte, workingBitCnt := 0);
      engine := engine.(workingByteCnt := engine.workingByteCnt + 1);
      if engine.workingByteCnt <= config.readBufferSize {
        var b := if engine.workingPtr < ram.Length then ram[engine.workingPtr] else 0;
        assert b == Load(ram[..], engine.workingPtr);
        engine := engine.(workingByte := LoadForRead(b), workingPtr := engine.workingPtr + 1);
      } else {
        engine := engine.(workingByte := 0x8000);
        results := results.(errorFlags := WithFlag(results.errorFlags, SLAVE_BUFFER_OVERFLOW));
      }
      ghost var g := Snap();
      OutputDataBit();
      assert Snap() == OutputDataBitStep(g);
    }

    method HandleAck(sdaHigh: bool)
      modifies this
      ensures Snap() == HandleAckStep(old(Snap()), sdaHigh)
    {
      if engine.mode == AckOut {
        channels := channels.(sdaOut := Low);
        engine := engine.(mode := AckComplete);
      } else if engine.mode == AckIn {
        channels := channels.(sclDetect := FallingEdge);
        engine := engine.(lastAck := sdaHigh, mode := AckComplete);
      } else {
        if config.dataWait && engine.workingByteCnt == 0 && engine.readMessage && results.header != START_BYTE {
          channels := channels.(sclInInterrupt := true, sclOut := Low);
        }
        if !engine.readMessage {
          channels := channels.(sclDetect := RisingEdge);
          engine := engine.(mode := WriteByteCheckStop, workingBitCnt := 0, workingByte := 0);
          channels := channels.(sdaOut := High);
        } else {
          LoadNextReadByte();
        }
      }
    }

    method FoundStop(sclHigh: bool)
      modifies this
      ensures Snap() == FoundStopStep(old(Snap()), sclHigh)
    {
      results := results.(byteCnt := engine.workingByteCnt);
      channels := channels.(sdaInInterrupt := true, sdaDetect := FallingEdge);
      if !sclHigh {
        results := results.(errorFlags := WithFlag(results.errorFlags, SLAVE_STOP_FAILED));
        RestartIdle();
        return;
      }
      engine := engine.(mode := Idle);
      channels := channels.(sclDetect := FallingEdge);
    }

    method FoundRepeatedStart(sclHigh: bool)
      modifies this
      ensures Snap() == FoundRepeatedStartStep(old(Snap()), sclHigh)
    {
      channels := channels.(sdaDetect := NoEdge);
      results := results.(byteCnt := engine.workingByteCnt);
      channels := channels.(sdaInInterrupt := true);
      if !sclHigh {
        results := results.(errorFlags := WithFlag(results.errorFlags, SLAVE_INVALID_START));
        RestartIdle();
        return;
      }
      engine := engine.(mode := StartSdaLow);
      channels := channels.(sclDetect := FallingEdge);
    }

    method ReadDataReady(now: bv24)
      modifies this
      ensures Snap() == ReadDataReadyStep(old(Snap()), now)
    {
      ghost var f := Snap();
      var b := if config.readBuffer < ram.Length then ram[config.readBuffer] else 0;
      assert b == Load(f.ram, config.readBuffer);
      engine := engine.(workingBitCnt := 0, workingPtr := config.readBuffer + 1, workingByte := LoadForRead(b));
      channels := channels.(scheduled := channels.scheduled + [Drive(SCL, After(now, config.tSuDat), High)],
                            dataReadyRequest := false);
      ghost var g := Snap();
      assert g == ReloadReadBuffer(f, now);
      OutputDataBit();
    }

    method LatchAndClearErrorFlags()
      modifies this
      ensures Snap() == LatchAndClearStep(old(Snap()))
    {
      results := results.(latchedErrorFlags := results.errorFlags, errorFlags := 0);
      channels := channels.(latchRequest := false);
    }
  }
}
