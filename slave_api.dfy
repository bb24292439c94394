/**
 * The host interface of the I2C slave: initialisation from a configuration
 * record, moving the read and write buffers, the data-ready signal of the
 * data-wait mode, reading back the last transfer and its data, and the
 * error flags. Every call writes or reads the slave's channel frame,
 * `SlaveEngine.I2CSlave`, the way the host CPU accesses the eTPU parameter
 * RAM; a host service request is a pending-request flag the engine's threads
 * clear.
 */
module SlaveApi {
  import opened I2CCommon
  import opened HostCommon
  import opened SlaveEngine
  import opened SlaveProperties

  /** `ETPU_I2C_SLAVE_DATA_READY_FM0` and `ETPU_I2C_SLAVE_DATA_WAIT_FM0`: the two read data modes. */
  const DATA_READY_FM0: nat := 0
  const DATA_WAIT_FM0: nat := 1

  /**
   * The host's configuration record. Buffers are host pointers into the eTPU
   * data RAM; the times are in ns.
   */
  datatype SlaveSettings = SlaveSettings(
    address: bv8,
    addressMask: bv8,
    acceptGeneralCall: bv8,
    dataMode: nat,
    readBuffer: nat,
    readBufferSize: nat,
    writeBuffer: nat,
    writeBufferSize: nat,
    tSuDatNs: nat,
    tBufNs: nat)

  /**
   * The channel frame configuration `init` writes: the address, mask and
   * general-call setting, the buffers as data RAM offsets, the sizes as
   * 24-bit values, the times converted to ticks, and the data mode taken
   * from bit FM0 of the SCL_in channel's function mode.
   */
  function SlaveConfigOf(tcr1Freq: nat, st: SlaveSettings): (c: SlaveConfig)
    ensures c.address == st.address && c.addressMask == st.addressMask
    ensures c.acceptGeneralCall <==> st.acceptGeneralCall != 0
    ensures st.dataMode == DATA_WAIT_FM0 ==> c.dataWait
    ensures st.dataMode == DATA_READY_FM0 ==> !c.dataWait
    ensures st.readBufferSize < U24 ==> c.readBufferSize == st.readBufferSize
    ensures st.writeBufferSize < U24 ==> c.writeBufferSize == st.writeBufferSize
    ensures c.readBuffer < RAM_WINDOW && c.writeBuffer < RAM_WINDOW
  {
    SlaveConfig(st.address, st.addressMask, st.acceptGeneralCall != 0,
                st.readBufferSize % U24, st.writeBufferSize % U24,
                RamOffset(st.readBuffer), RamOffset(st.writeBuffer),
                NsToTicks(tcr1Freq, st.tSuDatNs), NsToTicks(tcr1Freq, st.tBufNs),
                st.dataMode % 2 == 1)
  }

  /** The engine fields of a zeroed channel frame: looking for an idle bus. */
  const CLEARED_ENGINE: Engine := Engine(FindIdle, 0, 0, 0, false, 0, false, 0)

  /**
   * `aw_etpu_i2c_slave_init`: after the channel and priority checks, the frame
   * is zeroed and the configuration written. The frame allocation, the channel
   * registers and the init request are not part of this model.
   */
  method Init(s: I2CSlave, inst: Instance, clocks: Clocks, st: SlaveSettings) returns (r: ApiResult)
    modifies s
    ensures r == (if ValidChannel(inst.baseChannel) && ValidPriority(inst.priority) then Success else ErrorValue)
    ensures r != Success ==> unchanged(s)
    ensures r == Success ==>
      s.engine == CLEARED_ENGINE && s.results == Results(0, 0, 0, 0)
      && s.config == SlaveConfigOf(Tcr1Freq(inst, clocks), st)
      && s.channels == old(s.channels)
  {
    if !ValidChannel(inst.baseChannel) || !ValidPriority(inst.priority) {
      return ErrorValue;
    }
    s.engine := CLEARED_ENGINE;
    s.results := Results(0, 0, 0, 0);
    s.config := SlaveConfigOf(Tcr1Freq(inst, clocks), st);
    r := Success;
  }

  /** `aw_etpu_i2c_slave_set_read_buffer`: a new read buffer and its size. */
  method SetReadBuffer(s: I2CSlave, inst: Instance, buffer: nat, size: nat) returns (r: ApiResult)
    modifies s
    ensures r == (if ValidChannel(inst.baseChannel) then Success else ErrorValue)
    ensures r != Success ==> unchanged(s)
    ensures r == Success ==>
      s.config == old(s.config).(readBuffer := RamOffset(buffer), readBufferSize := size % U24)
      && s.engine == old(s.engine) && s.results == old(s.results) && s.channels == old(s.channels)
  {
    if !ValidChannel(inst.baseChannel) {
      return ErrorValue;
    }
    s.config := s.config.(readBuffer := RamOffset(buffer), readBufferSize := size % U24);
    r := Success;
  }

  /** `aw_etpu_i2c_slave_set_write_buffer`: a new write buffer and its size. */
  method SetWriteBuffer(s: I2CSlave, inst: Instance, buffer: nat, size: nat) returns (r: ApiResult)
    modifies s
    ensures r == (if ValidChannel(inst.baseChannel) then Success else ErrorValue)
    ensures r != Success ==> unchanged(s)
    ensures r == Success ==>
      s.config == old(s.config).(writeBuffer := RamOffset(buffer), writeBufferSize := size % U24)
      && s.engine == old(s.engine) && s.results == old(s.results) && s.channels == old(s.channels)
  {
    if !ValidChannel(inst.baseChannel) {
      return ErrorValue;
    }
    s.config := s.config.(writeBuffer := RamOffset(buffer), writeBufferSize := size % U24);
    r := Success;
  }

  /** `aw_etpu_i2c_slave_issue_data_ready`: the data-ready request to the SCL_out thread. */
  method IssueDataReady(s: I2CSlave, inst: Instance) returns (r: ApiResult)
    modifies s
    ensures r == (if ValidChannel(inst.baseChannel) then Success else ErrorValue)
    ensures r != Success ==> unchanged(s)
    ensures r == Success ==>
      s.channels == old(s.channels).(dataReadyRequest := true)
      && s.engine == old(s.engine) && s.config == old(s.config) && s.results == old(s.results)
  {
    if !ValidChannel(inst.baseChannel) {
      return ErrorValue;
    }
    s.channels := s.channels.(dataReadyRequest := true);
    r := Success;
  }

  /**
   * `aw_etpu_i2c_slave_get_transfer_status`: the header, byte count and
   * running error flags of the last transfer; each of `headerOut`, `sizeOut`
   * and `flagsOut` is false for a null pointer, whose value is then not read.
   */
  method GetTransferStatus(s: I2CSlave, inst: Instance, headerOut: bool, sizeOut: bool, flagsOut: bool)
    returns (r: ApiResult, header: bv8, size: nat, flags: bv8)
    ensures r == (if ValidChannel(inst.baseChannel) then Success else ErrorValue)
    ensures r == Success && headerOut ==> header == s.results.header
    ensures r == Success && sizeOut ==> size == s.results.byteCnt
    ensures r == Success && flagsOut ==> flags == s.results.errorFlags
  {
    header, size, flags := 0, 0, 0;
    if !ValidChannel(inst.baseChannel) {
      return ErrorValue, header, size, flags;
    }
    if headerOut {
      header := s.results.header;
    }
    if sizeOut {
      size := s.results.byteCnt;
    }
    if flagsOut {
      flags := s.results.errorFlags;
    }
    r := Success;
  }

  /**
   * The bytes `get_write_data` hands to the host: the write buffer's contents
   * up to the byte count of the last transfer, but never past the buffer's
   * size.
   */
  function WriteData(f: Frame): (r: seq<bv8>)
    ensures |r| <= f.results.byteCnt && |r| <= f.config.writeBufferSize
    ensures |r| == f.results.byteCnt || |r| == f.config.writeBufferSize
  {
    var n := if f.results.byteCnt < f.config.writeBufferSize then f.results.byteCnt else f.config.writeBufferSize;
    seq(n, i requires 0 <= i < n => Load(f.ram, f.config.writeBuffer + i))
  }

  /**
   * `aw_etpu_i2c_slave_get_write_data`: the header and byte count of the last
   * transfer, and the data of a write copied byte by byte from the write
   * buffer into `dest`. The three pointer arguments must not be null
   * (`headerOut`, `destOut` and `sizeOut` are false for a null pointer), and
   * `dest` must have room for the bytes copied.
   */
  method GetWriteData(s: I2CSlave, inst: Instance, dest: array<bv8>, headerOut: bool, destOut: bool, sizeOut: bool)
    returns (r: ApiResult, header: bv8, size: nat)
    requires dest != s.ram
    requires ValidChannel(inst.baseChannel) && headerOut && destOut && sizeOut ==>
      s.results.byteCnt <= dest.Length || s.config.writeBufferSize <= dest.Length
    modifies dest
    ensures r == (if ValidChannel(inst.baseChannel) && headerOut && destOut && sizeOut then Success else ErrorValue)
    ensures r != Success ==> unchanged(dest)
    ensures r == Success ==>
      header == s.results.header && size == s.results.byteCnt
      && var data := WriteData(s.Snap());
      dest[..|data|] == data && dest[|data|..] == old(dest[|data|..])
  {
    if !ValidChannel(inst.baseChannel) || !headerOut || !destOut || !sizeOut {
      return ErrorValue, 0, 0;
    }
    header := s.results.header;
    size := s.results.byteCnt;
    var n := s.config.writeBufferSize;
    if size < n {
      n := size;
    }
    var src := s.config.writeBuffer;
    var i := 0;
    while i < n
      invariant 0 <= i <= n
      invariant forall j :: 0 <= j < i ==> dest[j] == Load(s.ram[..], src + j)
      invariant forall j :: i <= j < dest.Length ==> dest[j] == old(dest[j])
    {
      dest[i] := if src + i < s.ram.Length then s.ram[src + i] else 0;
      i := i + 1;
    }
    assert dest[..n] == WriteData(s.Snap());
    r := Success;
  }

  /**
   * What the host reads back after a write to this slave: the header, the
   * number of bytes the master sent, and through `get_write_data` exactly the
   * bytes that fit in the write buffer, in the order they were sent.
   */
  lemma HostReadsWrite(f: Frame, h: bv8, bs: seq<bv8>)
    requires f.engine.mode == Idle && Addresses(f.config, h) && h & RW_MASK == 0
    requires f.config.writeBuffer + f.config.writeBufferSize <= |f.ram| || f.config.writeBuffer + |bs| <= |f.ram|
    ensures var e := WriteTransfer(f, h, bs);
      var k := if |bs| <= f.config.writeBufferSize then |bs| else f.config.writeBufferSize;
      e.results.header == h && e.results.byteCnt == |bs| && WriteData(e) == bs[..k]
  {
    WriteTransferStores(f, h, bs);
    ReadBack(f.config, f.ram, WriteTransfer(f, h, bs), bs);
  }

  /**
   * The write of the demonstration run: four bytes to a slave at address 0x64
   * with mask 0xFE come back from `get_write_data` as sent, with size 4 and
   * header 0x64.
   */
  lemma DemoWrite(f: Frame, h: bv8, bs: seq<bv8>)
    requires f.engine.mode == Idle && f.config.address == 0x64 && f.config.addressMask == 0xFE
    requires f.config.writeBufferSize >= 4 && f.config.writeBuffer + 4 <= |f.ram|
    requires h == 0x64 && bs == [0x11, 0x22, 0x33, 0x44]
    ensures var e := WriteTransfer(f, h, bs);
      WriteData(e) == bs && e.results.byteCnt == 4 && e.results.header == 0x64
  {
    assert bs[..4] == bs;
    assert Addresses(f.config, h) && h & RW_MASK == 0 by {
    }
    HostReadsWrite(f, h, bs);
  }

  /**
   * The general call of the demonstration run: a one-byte write to address 0
   * reaches every slave that accepts general calls, whatever its own address,
   * with header 0x00 and size 1.
   */
  lemma DemoGeneralCall(f: Frame, h: bv8, bs: seq<bv8>)
    requires f.engine.mode == Idle && f.config.acceptGeneralCall
    requires f.config.writeBufferSize >= 1 && f.config.writeBuffer + 1 <= |f.ram|
    requires h == 0x00 && |bs| == 1
    ensures var e := WriteTransfer(f, h, bs);
      WriteData(e) == bs && e.results.byteCnt == 1 && e.results.header == 0x00
  {
    assert bs[..1] == bs;
    assert Addresses(f.config, h) && h & RW_MASK == 0 by {
    }
    HostReadsWrite(f, h, bs);
  }

  /** A frame whose write buffer holds the bytes of a write that fit in it hands those bytes to the host. */
  lemma ReadBack(c: SlaveConfig, ram: seq<bv8>, e: Frame, bs: seq<bv8>)
    requires c.writeBuffer + c.writeBufferSize <= |ram| || c.writeBuffer + |bs| <= |ram|
    requires e.config == c && e.results.byteCnt == |bs|
    requires e.ram == StoreAll(ram, c.writeBuffer, bs[..if |bs| <= c.writeBufferSize then |bs| else c.writeBufferSize])
    ensures WriteData(e) == bs[..if |bs| <= c.writeBufferSize then |bs| else c.writeBufferSize]
  {
    var stored := bs[..if |bs| <= c.writeBufferSize then |bs| else c.writeBufferSize];
    StoredLoads(e.ram, ram, c.writeBuffer, stored);
    LoadedWriteData(e, stored);
  }

  /** The data RAM `now` reads `stored` back from address `p` on. */
  predicate HoldsFrom(now: seq<bv8>, p: nat, stored: seq<bv8>)
  {
    forall i :: 0 <= i < |stored| ==> Load(now, p + i) == stored[i]
  }

  /** RAM that is `ram` with `stored` written from address `p` reads `stored` back from `p`. */
  lemma StoredLoads(now: seq<bv8>, ram: seq<bv8>, p: nat, stored: seq<bv8>)
    requires now == StoreAll(ram, p, stored) && p + |stored| <= |ram|
    ensures HoldsFrom(now, p, stored)
  {
    StoreAllLoads(ram, p, stored);
  }

  /** A frame whose write buffer holds `stored`, with as many bytes counted as fit, hands `stored` to the host. */
  lemma LoadedWriteData(e: Frame, stored: seq<bv8>)
    requires |stored| == (if e.results.byteCnt < e.config.writeBufferSize then e.results.byteCnt else e.config.writeBufferSize)
    requires HoldsFrom(e.ram, e.config.writeBuffer, stored)
    ensures WriteData(e) == stored
  {
  }

  /** `aw_etpu_i2c_slave_latch_clear_error_flags`: the latch request to the SCL_in thread. */
  method LatchClearErrorFlags(s: I2CSlave, inst: Instance) returns (r: ApiResult)
    modifies s
    ensures r == (if ValidChannel(inst.baseChannel) then Success else ErrorValue)
    ensures r != Success ==> unchanged(s)
    ensures r == Success ==>
      s.channels == old(s.channels).(latchRequest := true)
      && s.engine == old(s.engine) && s.config == old(s.config) && s.results == old(s.results)
  {
    if !ValidChannel(inst.baseChannel) {
      return ErrorValue;
    }
    s.channels := s.channels.(latchRequest := true);
    r := Success;
  }

  /** `aw_etpu_i2c_slave_get_running_error_flags`; `flagsOut` is false for a null pointer. */
  method GetRunningErrorFlags(s: I2CSlave, inst: Instance, flagsOut: bool) returns (r: ApiResult, flags: bv8)
    ensures r == (if ValidChannel(inst.baseChannel) && flagsOut then Success else ErrorValue)
    ensures r == Success ==> flags == s.results.errorFlags
  {
    if !ValidChannel(inst.baseChannel) || !flagsOut {
      return ErrorValue, 0;
    }
    return Success, s.results.errorFlags;
  }

  /** `aw_etpu_i2c_slave_get_latched_error_flags`. */
  method GetLatchedErrorFlags(s: I2CSlave, inst: Instance, flagsOut: bool) returns (r: ApiResult, flags: bv8)
    ensures r == (if ValidChannel(inst.baseChannel) && flagsOut then Success else ErrorValue)
    ensures r == Success ==> flags == s.results.latchedErrorFlags
  {
    if !ValidChannel(inst.baseChannel) || !flagsOut {
      return ErrorValue, 0;
    }
    return Success, s.results.latchedErrorFlags;
  }

  /** `aw_etpu_i2c_slave_clear_running_error_flags`: the running flags become 0, the latched ones stay. */
  method ClearRunningErrorFlags(s: I2CSlave, inst: Instance) returns (r: ApiResult)
    modifies s
    ensures r == (if ValidChannel(inst.baseChannel) then Success else ErrorValue)
    ensures r != Success ==> unchanged(s)
    ensures r == Success ==>
      s.results == old(s.results).(errorFlags := 0)
      && s.engine == old(s.engine) && s.config == old(s.config) && s.channels == old(s.channels)
  {
    if !ValidChannel(inst.baseChannel) {
      return ErrorValue;
    }
    s.results := s.results.(errorFlags := 0);
    r := Success;
  }

  /** `aw_etpu_i2c_slave_clear_latched_error_flags`: the latched flags become 0, the running ones stay. */
  method ClearLatchedErrorFlags(s: I2CSlave, inst: Instance) returns (r: ApiResult)
    modifies s
    ensures r == (if ValidChannel(inst.baseChannel) then Success else ErrorValue)
    ensures r != Success ==> unchanged(s)
    ensures r == Success ==>
      s.results == old(s.results).(latchedErrorFlags := 0)
      && s.engine == old(s.engine) && s.config == old(s.config) && s.channels == old(s.channels)
  {
    if !ValidChannel(inst.baseChannel) {
      return ErrorValue;
    }
    s.results := s.results.(latchedErrorFlags := 0);
    r := Success;
  }
}
