/**
 * What the host interfaces of the master and the slave share: their return
 * codes, the check that an instance's four consecutive channels lie in one
 * eTPU engine, the priority check, and the conversion of a time in ns into
 * TCR1 ticks as a 24-bit frame parameter.
 */
module HostCommon {
  import opened I2CCommon

  /** The return codes: 0, `FS_ETPU_ERROR_VALUE` and `FS_ETPU_ERROR_NOT_READY`. */
  datatype ApiResult = Success | ErrorValue | ErrorNotReady

  const U24: nat := 0x100_0000
  const U32: nat := 0x1_0000_0000

  /** The eTPU module an instance runs on: the A/B pair or eTPU C. */
  datatype EngineModule = EmAB | EmC

  /** The TCR1 frequency in Hz of each eTPU engine, as the host has measured it. */
  datatype Clocks = Clocks(aTcr1: nat, bTcr1: nat, cTcr1: nat)

  /** Which instance the host addresses: module, first of its four channels, priority. */
  datatype Instance = Instance(em: EngineModule, baseChannel: nat, priority: nat)

  /** The TCR1 frequency the instance's channels run on: channels 0..31 of A/B are on A, the others on B. */
  function Tcr1Freq(inst: Instance, clocks: Clocks): (r: nat)
    ensures inst.em == EmC ==> r == clocks.cTcr1
    ensures inst.em == EmAB ==> r == (if inst.baseChannel < 32 then clocks.aTcr1 else clocks.bTcr1)
  {
    match inst.em
    case EmAB => if inst.baseChannel < 32 then clocks.aTcr1 else clocks.bTcr1
    case EmC => clocks.cTcr1
  }

  /** The channel check every call makes before touching the frame. */
  predicate ValidChannel(channel: nat)
  {
    !((channel > 32 - CHANNELS_USED && channel < 64) || channel > 96 - CHANNELS_USED)
  }

  /**
   * The channel check accepts exactly the base channels whose four channels
   * all lie in channels 0..31 or all in channels 64..95, the channels of one
   * engine.
   */
  lemma ValidChannelOneEngine(channel: nat)
    ensures ValidChannel(channel) <==>
      (channel + CHANNELS_USED <= 32 || (64 <= channel && channel + CHANNELS_USED <= 96))
  {
  }

  /** The priority check of the init calls: 1 (low) to 3 (high). */
  predicate ValidPriority(priority: nat)
  {
    priority != 0 && priority <= 3
  }

  /** A value written into a 24-bit frame parameter keeps its low 24 bits. */
  function Trunc24(n: nat): bv24
  {
    (n % U24) as bv24
  }

  /** The size of the eTPU data RAM window a buffer pointer is masked into (`& 0x3fff`). */
  const RAM_WINDOW: nat := 0x4000

  /**
   * `(uint24_t)p & 0x3fff`: the offset of a host pointer in the eTPU data RAM, as both
   * host interfaces write buffer pointers into the frame.
   */
  function RamOffset(p: nat): (r: nat)
    ensures r < RAM_WINDOW
  {
    (p % U24) % RAM_WINDOW
  }

  /**
   * A pointer to offset `off` of a data RAM that starts on a 16 KiB boundary
   * is written to the frame as `off` itself.
   */
  lemma RamOffsetOfPointer(ramStart: nat, off: nat)
    requires ramStart % RAM_WINDOW == 0 && off < RAM_WINDOW
    ensures RamOffset(ramStart + off) == off
  {
    assert U24 == RAM_WINDOW * 1024;
    var q := ramStart / RAM_WINDOW;
    assert ramStart + off == (q % 1024) * RAM_WINDOW + off + (q / 1024) * U24;
  }

  /**
   * `((tcr1_freq / 1000000) * ns) / 1000` with unsigned 32-bit arithmetic:
   * the frequency in MHz times the time in ns is the time in thousandths of
   * a tick, truncated to whole ticks.
   */
  function TickCount(tcr1Freq: nat, ns: nat): nat
  {
    (((tcr1Freq / 1_000_000) * ns) % U32) / 1000
  }

  /** The tick count as the 24-bit frame parameter it is written to. */
  function NsToTicks(tcr1Freq: nat, ns: nat): bv24
  {
    Trunc24(TickCount(tcr1Freq, ns))
  }

  /**
   * When the product fits in 32 bits, the conversion rounds down: the
   * ticks, times 1000, stay within 1000 below MHz times ns.
   */
  lemma TickCountRoundsDown(tcr1Freq: nat, ns: nat)
    requires (tcr1Freq / 1_000_000) * ns < U32
    ensures var exact := (tcr1Freq / 1_000_000) * ns;
      var t := TickCount(tcr1Freq, ns);
      t * 1000 <= exact < t * 1000 + 1000
  {
  }

  /** Without overflow, a longer time never converts to fewer ticks. */
  lemma TickCountMonotone(tcr1Freq: nat, ns1: nat, ns2: nat)
    requires ns1 <= ns2 && (tcr1Freq / 1_000_000) * ns2 < U32
    ensures TickCount(tcr1Freq, ns1) <= TickCount(tcr1Freq, ns2)
  {
    var mhz := tcr1Freq / 1_000_000;
    MulMonotone(mhz, ns1, ns2);
    DivMonotone(mhz * ns1, mhz * ns2, 1000);
  }

  lemma MulMonotone(a: nat, x: nat, y: nat)
    requires x <= y
    ensures a * x <= a * y
  {
  }

  lemma DivMonotone(x: nat, y: nat, d: nat)
    requires x <= y && d > 0
    ensures x / d <= y / d
  {
    if x / d > y / d {
      MulMonotone(d, y / d + 1, x / d);
      assert false;
    }
  }
}
