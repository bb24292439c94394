/**
 * The host interface of the I2C master: initialisation with a timing derived
 * from the bit rate, explicit timing in ns, the four ways to start a transfer
 * (write, read, combined format, a raw command list) and the error flags.
 * Every call writes the master's channel frame, `MasterEngine.I2CMaster`,
 * the way the host CPU writes the eTPU parameter RAM; a host service request
 * is a pending-request flag the engine's threads clear.
 */
module MasterApi {
  import opened I2CCommon
  import opened HostCommon
  import opened MasterEngine

  /** `ETPU_I2C_WRITE_MESSAGE` and `ETPU_I2C_READ_MESSAGE`: the R/W bit of a header. */
  const WRITE_MESSAGE: bv8 := 0x00
  const READ_MESSAGE: bv8 := 0x01

  /** The engine fields of a zeroed channel frame. */
  const CLEARED_ENGINE: Engine := Engine(0, 0, false, 0, 0, 0, 0, 0, 0, false, false)

  /** The bus timing the host asks for, in ns. */
  datatype TimingNs = TimingNs(tLow: nat, tHigh: nat, tBuf: nat, tSuSta: nat, tSuSto: nat, tHdDat: nat, trMax: nat)

  /** A bus timing in TCR1 ticks, before each value is cast to its 24-bit frame parameter. */
  datatype Ticks = Ticks(tLow: nat, tHigh: nat, tBuf: nat, tSuSta: nat, tSuSto: nat, tHdDat: nat, trMax: nat)

  /** `bit_rate_khz * 1000` in unsigned 32-bit arithmetic: the bit rate in Hz. */
  function BitRateHz(bitRateKhz: nat): nat
  {
    (bitRateKhz * 1000) % U32
  }

  /** `tcr1_freq / (bit_rate_khz * 1000)`: TCR1 ticks per bit. */
  function BitTime(tcr1Freq: nat, bitRateHz: nat): nat
    requires bitRateHz > 0
  {
    tcr1Freq / bitRateHz
  }

  /**
   * The timing `init` derives from the bit time: a symmetric clock whose low
   * and high phases add up to the bit time (one tick less when it is odd),
   * START and STOP timing of half a bit, a data hold time of a tenth of the
   * low phase and a rise-time allowance of a tenth of the bit.
   */
  function DefaultTicks(bitTime: nat): (t: Ticks)
    ensures t.tLow == t.tHigh && (t.tLow + t.tHigh == bitTime || t.tLow + t.tHigh + 1 == bitTime)
    ensures t.tBuf == t.tLow && t.tSuSta == t.tLow && t.tSuSto == t.tLow
    ensures t.tHdDat * 10 <= t.tLow < t.tHdDat * 10 + 10
    ensures t.trMax * 10 <= bitTime < t.trMax * 10 + 10
  {
    var half := bitTime / 2;
    Ticks(half, half, half, half, half, bitTime / 20, bitTime / 10)
  }

  /** `set_timing`: each time in ns converted to ticks. */
  function ConvertTiming(tcr1Freq: nat, ns: TimingNs): Ticks
  {
    Ticks(TickCount(tcr1Freq, ns.tLow), TickCount(tcr1Freq, ns.tHigh), TickCount(tcr1Freq, ns.tBuf),
          TickCount(tcr1Freq, ns.tSuSta), TickCount(tcr1Freq, ns.tSuSto), TickCount(tcr1Freq, ns.tHdDat),
          TickCount(tcr1Freq, ns.trMax))
  }

  /** A timing as the 24-bit frame parameters it is written to. */
  function FrameTiming(t: Ticks): Timing
  {
    Timing(Trunc24(t.tLow), Trunc24(t.tHigh), Trunc24(t.tBuf), Trunc24(t.tSuSta), Trunc24(t.tSuSto),
           Trunc24(t.tHdDat), Trunc24(t.trMax))
  }

  /** The header `transmit` builds: the address bits of `address` and a 0 in the R/W bit. */
  function WriteHeader(address: bv8): (h: bv8)
    ensures !HeaderIsRead(h) && h & 0xFE == address & 0xFE
  {
    (address & !RW_MASK) | WRITE_MESSAGE
  }

  /** The header `receive` builds: the address bits of `address` and a 1 in the R/W bit. */
  function ReadHeader(address: bv8): (h: bv8)
    ensures HeaderIsRead(h) && h & 0xFE == address & 0xFE
  {
    (address & !RW_MASK) | READ_MESSAGE
  }

  /**
   * The command list after the host writes record `i`: record `i` reads as
   * `c`, every other record as before.
   */
  function WriteCommand(cmds: seq<Command>, i: nat, c: Command): (r: seq<Command>)
    ensures CommandAt(r, i) == c
    ensures forall j :: j != i ==> CommandAt(r, j) == CommandAt(cmds, j)
  {
    if i < |cmds| then cmds[i := c] else cmds + seq(i - |cmds|, _ => Command(0, 0, 0)) + [c]
  }

  /**
   * The checks every transfer call makes, in order: the channel and the
   * arguments (ERROR_VALUE), then the frame's in-use flag (NOT_READY).
   */
  function TransferResult(channelOk: bool, argsOk: bool, inUse: bool): (r: ApiResult)
    ensures r == Success <==> channelOk && argsOk && !inUse
    ensures r == ErrorNotReady <==> channelOk && argsOk && inUse
  {
    if !channelOk || !argsOk then ErrorValue
    else if inUse then ErrorNotReady
    else Success
  }

  /** A buffer argument is acceptable unless it is null with a nonzero size. */
  predicate BufferOk(size: nat, buffer: nat)
  {
    size == 0 || buffer != 0
  }

  /**
   * `aw_etpu_i2c_master_init`: after the channel and priority checks, the frame
   * is zeroed and the timing derived from the bit rate, and the command list
   * address are written. The frame allocation and the channel registers are not
   * part of this model.
   */
  method Init(m: I2CMaster, inst: Instance, clocks: Clocks, bitRateKhz: nat, commands: seq<Command>)
    returns (r: ApiResult)
    requires ValidChannel(inst.baseChannel) && ValidPriority(inst.priority) ==> BitRateHz(bitRateKhz) > 0
    modifies m
    ensures r == (if ValidChannel(inst.baseChannel) && ValidPriority(inst.priority) then Success else ErrorValue)
    ensures r != Success ==> unchanged(m)
    ensures r == Success ==>
      m.engine == CLEARED_ENGINE && m.status == Status(false, 0, 0)
      && m.config == MasterConfig(FrameTiming(DefaultTicks(BitTime(Tcr1Freq(inst, clocks), BitRateHz(bitRateKhz)))), commands, 0)
      && m.channels == old(m.channels) && m.matches == old(m.matches)
  {
    if !ValidChannel(inst.baseChannel) || !ValidPriority(inst.priority) {
      return ErrorValue;
    }
    var bitTime := BitTime(Tcr1Freq(inst, clocks), BitRateHz(bitRateKhz));
    m.engine := CLEARED_ENGINE;
    m.status := Status(false, 0, 0);
    m.config := MasterConfig(FrameTiming(DefaultTicks(bitTime)), commands, 0);
    r := Success;
  }

  /** `aw_etpu_i2c_master_set_timing`: every timing parameter from a time in ns. */
  method SetTiming(m: I2CMaster, inst: Instance, clocks: Clocks, ns: TimingNs) returns (r: ApiResult)
    modifies m
    ensures r == (if ValidChannel(inst.baseChannel) then Success else ErrorValue)
    ensures r != Success ==> unchanged(m)
    ensures r == Success ==>
      m.config == old(m.config).(timing := FrameTiming(ConvertTiming(Tcr1Freq(inst, clocks), ns)))
      && m.engine == old(m.engine) && m.status == old(m.status)
      && m.channels == old(m.channels) && m.matches == old(m.matches)
  {
    if !ValidChannel(inst.baseChannel) {
      return ErrorValue;
    }
    m.config := m.config.(timing := FrameTiming(ConvertTiming(Tcr1Freq(inst, clocks), ns)));
    r := Success;
  }

  /** The frame writes a transfer call makes once its checks pass: the command list, the count, the request. */
  method StartCommands(m: I2CMaster, commands: seq<Command>, cmdCnt: nat)
    modifies m
    ensures m.config == old(m.config).(commands := commands, cmdCnt := cmdCnt)
    ensures m.channels == old(m.channels).(startRequest := true)
    ensures m.engine == old(m.engine) && m.status == old(m.status) && m.matches == old(m.matches)
  {
    m.config := m.config.(commands := commands, cmdCnt := cmdCnt);
    m.channels := m.channels.(startRequest := true);
  }

  /**
   * `aw_etpu_i2c_master_transmit`: one write command to `address` from `buffer`
   * in the first record of the command list, a count of one, and the start
   * request; refused while a transfer is in progress.
   */
  method Transmit(m: I2CMaster, inst: Instance, address: bv8, size: nat, buffer: nat) returns (r: ApiResult)
    modifies m
    ensures r == TransferResult(ValidChannel(inst.baseChannel), BufferOk(size, buffer), old(m.status.inUse))
    ensures r != Success ==> unchanged(m)
    ensures r == Success ==>
      m.config == old(m.config).(commands := WriteCommand(old(m.config.commands), 0,
                                                          Command(WriteHeader(address), RamOffset(buffer), size)),
                                 cmdCnt := 1)
      && m.channels == old(m.channels).(startRequest := true)
      && m.engine == old(m.engine) && m.status == old(m.status) && m.matches == old(m.matches)
  {
    r := TransferResult(ValidChannel(inst.baseChannel), BufferOk(size, buffer), m.status.inUse);
    if r == Success {
      StartCommands(m, WriteCommand(m.config.commands, 0, Command(WriteHeader(address), RamOffset(buffer), size)), 1);
    }
  }

  /** `aw_etpu_i2c_master_receive`: as `Transmit`, with a read command. */
  method Receive(m: I2CMaster, inst: Instance, address: bv8, size: nat, buffer: nat) returns (r: ApiResult)
    modifies m
    ensures r == TransferResult(ValidChannel(inst.baseChannel), BufferOk(size, buffer), old(m.status.inUse))
    ensures r != Success ==> unchanged(m)
    ensures r == Success ==>
      m.config == old(m.config).(commands := WriteCommand(old(m.config.commands), 0,
                                                          Command(ReadHeader(address), RamOffset(buffer), size)),
                                 cmdCnt := 1)
      && m.channels == old(m.channels).(startRequest := true)
      && m.engine == old(m.engine) && m.status == old(m.status) && m.matches == old(m.matches)
  {
    r := TransferResult(ValidChannel(inst.baseChannel), BufferOk(size, buffer), m.status.inUse);
    if r == Success {
      StartCommands(m, WriteCommand(m.config.commands, 0, Command(ReadHeader(address), RamOffset(buffer), size)), 1);
    }
  }

  /**
   * `aw_etpu_i2c_master_combined_transfer`: two commands with the headers as
   * given, in the first two records, joined by a repeated START.
   */
  method CombinedTransfer(m: I2CMaster, inst: Instance, header1: bv8, size1: nat, buffer1: nat,
                          header2: bv8, size2: nat, buffer2: nat) returns (r: ApiResult)
    modifies m
    ensures r == TransferResult(ValidChannel(inst.baseChannel),
                                BufferOk(size1, buffer1) && BufferOk(size2, buffer2), old(m.status.inUse))
    ensures r != Success ==> unchanged(m)
    ensures r == Success ==>
      m.config == old(m.config).(commands := WriteCommand(WriteCommand(old(m.config.commands), 0,
                                                                       Command(header1, RamOffset(buffer1), size1)),
                                                          1, Command(header2, RamOffset(buffer2), size2)),
                                 cmdCnt := 2)
      && m.channels == old(m.channels).(startRequest := true)
      && m.engine == old(m.engine) && m.status == old(m.status) && m.matches == old(m.matches)
  {
    r := TransferResult(ValidChannel(inst.baseChannel), BufferOk(size1, buffer1) && BufferOk(size2, buffer2),
                        m.status.inUse);
    if r == Success {
      var cmds := WriteCommand(m.config.commands, 0, Command(header1, RamOffset(buffer1), size1));
      StartCommands(m, WriteCommand(cmds, 1, Command(header2, RamOffset(buffer2), size2)), 2);
    }
  }

  /** The count `raw_transfer` writes into the 8-bit `_cmd_cnt`: its low eight bits. */
  function RawCount(cmdCnt: nat): (r: nat)
    ensures r < 256 && (cmdCnt < 256 ==> r == cmdCnt)
  {
    cmdCnt % 256
  }

  /**
   * `aw_etpu_i2c_master_raw_transfer` as written: the frame points at the
   * host's own command list (`list`, held at address `listAddress`), and the
   * count, checked only for being nonzero, is written to the 8-bit `_cmd_cnt`.
   */
  method RawTransfer(m: I2CMaster, inst: Instance, listAddress: nat, list: seq<Command>, cmdCnt: nat)
    returns (r: ApiResult)
    modifies m
    ensures r == TransferResult(ValidChannel(inst.baseChannel), listAddress != 0 && cmdCnt != 0, old(m.status.inUse))
    ensures r != Success ==> unchanged(m)
    ensures r == Success ==>
      m.config == old(m.config).(commands := list, cmdCnt := RawCount(cmdCnt))
      && m.channels == old(m.channels).(startRequest := true)
      && m.engine == old(m.engine) && m.status == old(m.status) && m.matches == old(m.matches)
  {
    r := TransferResult(ValidChannel(inst.baseChannel), listAddress != 0 && cmdCnt != 0, m.status.inUse);
    if r == Success {
      StartCommands(m, list, RawCount(cmdCnt));
    }
  }

  /**
   * A list of 256 commands passes the check of `raw_transfer` but its count
   * reaches the frame as 0, so once the first command's bytes are done the
   * master stops where a count of 256 would go on to the next command.
   */
  lemma RawCountWraps(e: Engine)
    requires e.remaining == 0 && e.sentCnt == 0
    ensures TransferResult(true, 256 != 0, false) == Success && RawCount(256) == 0
    ensures AfterAckChoice(e, RawCount(256)) == Finish && AfterAckChoice(e, 256) == NextCommand
  {
  }

  /**
   * `raw_transfer` with the count checked against the width of `_cmd_cnt`:
   * a count the frame cannot hold is refused, so an accepted call stores the
   * count exactly.
   */
  method RawTransferChecked(m: I2CMaster, inst: Instance, listAddress: nat, list: seq<Command>, cmdCnt: nat)
    returns (r: ApiResult)
    modifies m
    ensures r == TransferResult(ValidChannel(inst.baseChannel), listAddress != 0 && 0 < cmdCnt < 256,
                                old(m.status.inUse))
    ensures r != Success ==> unchanged(m)
    ensures r == Success ==>
      m.config == old(m.config).(commands := list, cmdCnt := cmdCnt)
      && m.channels == old(m.channels).(startRequest := true)
      && m.engine == old(m.engine) && m.status == old(m.status) && m.matches == old(m.matches)
  {
    r := TransferResult(ValidChannel(inst.baseChannel), listAddress != 0 && 0 < cmdCnt < 256, m.status.inUse);
    if r == Success {
      StartCommands(m, list, cmdCnt);
    }
  }

  /** `aw_etpu_i2c_master_latch_clear_error_flags`: the latch request to the SCL_in thread. */
  method LatchClearErrorFlags(m: I2CMaster, inst: Instance) returns (r: ApiResult)
    modifies m
    ensures r == (if ValidChannel(inst.baseChannel) then Success else ErrorValue)
    ensures r != Success ==> unchanged(m)
    ensures r == Success ==>
      m.channels == old(m.channels).(latchRequest := true)
      && m.engine == old(m.engine) && m.config == old(m.config) && m.status == old(m.status)
      && m.matches == old(m.matches)
  {
    if !ValidChannel(inst.baseChannel) {
      return ErrorValue;
    }
    m.channels := m.channels.(latchRequest := true);
    r := Success;
  }

  /** `aw_etpu_i2c_master_get_running_error_flags`; `flagsOut` is false for a null pointer. */
  method GetRunningErrorFlags(m: I2CMaster, inst: Instance, flagsOut: bool) returns (r: ApiResult, flags: bv8)
    ensures r == (if ValidChannel(inst.baseChannel) && flagsOut then Success else ErrorValue)
    ensures r == Success ==> flags == m.status.errorFlags
  {
    if !ValidChannel(inst.baseChannel) || !flagsOut {
      return ErrorValue, 0;
    }
    return Success, m.status.errorFlags;
  }

  /** `aw_etpu_i2c_master_get_latched_error_flags`. */
  method GetLatchedErrorFlags(m: I2CMaster, inst: Instance, flagsOut: bool) returns (r: ApiResult, flags: bv8)
    ensures r == (if ValidChannel(inst.baseChannel) && flagsOut then Success else ErrorValue)
    ensures r == Success ==> flags == m.status.latchedErrorFlags
  {
    if !ValidChannel(inst.baseChannel) || !flagsOut {
      return ErrorValue, 0;
    }
    return Success, m.status.latchedErrorFlags;
  }

  /** `aw_etpu_i2c_master_clear_running_error_flags`: the running flags become 0, the latched ones stay. */
  method ClearRunningErrorFlags(m: I2CMaster, inst: Instance) returns (r: ApiResult)
    modifies m
    ensures r == (if ValidChannel(inst.baseChannel) then Success else ErrorValue)
    ensures r != Success ==> unchanged(m)
    ensures r == Success ==>
      m.status == old(m.status).(errorFlags := 0)
      && m.engine == old(m.engine) && m.config == old(m.config) && m.channels == old(m.channels)
      && m.matches == old(m.matches)
  {
    if !ValidChannel(inst.baseChannel) {
      return ErrorValue;
    }
    m.status := m.status.(errorFlags := 0);
    r := Success;
  }

  /** `aw_etpu_i2c_master_clear_latched_error_flags`: the latched flags become 0, the running ones stay. */
  method ClearLatchedErrorFlags(m: I2CMaster, inst: Instance) returns (r: ApiResult)
    modifies m
    ensures r == (if ValidChannel(inst.baseChannel) then Success else ErrorValue)
    ensures r != Success ==> unchanged(m)
    ensures r == Success ==>
      m.status == old(m.status).(latchedErrorFlags := 0)
      && m.engine == old(m.engine) && m.config == old(m.config) && m.channels == old(m.channels)
      && m.matches == old(m.matches)
  {
    if !ValidChannel(inst.baseChannel) {
      return ErrorValue;
    }
    m.status := m.status.(latchedErrorFlags := 0);
    r := Success;
  }
}
