/**
 * Properties of the master engine over several threads: the bits a header
 * and a data byte put on SDA, the byte a read assembles, and the event
 * dispatch of the four channels.
 */
module MasterProperties {
  import opened I2CCommon
  import opened MasterEngine

  /** The header's SDA actions: bit 7 first, then the seven `PulseClock` drives from the shifted header. */
  lemma HeaderDrives(h: bv8)
    ensures DrivesAll(BitsMsbFirst(h)) == [Drives(LevelOf(MsbOf(h)))] + DrivesAll(ShiftOutAll(HeaderWord(h << 1), 7))
  {
    HeaderBitsOut(h);
    HeaderWordShift(h);
    assert ShiftOutAll(HeaderWord(h), 8) == [MsbOf(h)] + ShiftOutAll(HeaderWord(h << 1), 7);
    DrivesAllCons(MsbOf(h), ShiftOutAll(HeaderWord(h << 1), 7));
  }

  /**
   * A data byte goes out as its bit 7, driven from the carry when the byte is
   * loaded, followed by the seven levels `PulseClock` drives from `DataWord`:
   * all eight bits, most significant first.
   */
  lemma DataBitsOut(b: bv8)
    ensures [MsbOf(b)] + ShiftOutAll(DataWord(b), 7) == BitsMsbFirst(b)
  {
    assert DataWord(b) == HeaderWord(b << 1);
    HeaderWordOut(b << 1, 7);
    assert MsbBits(b, 8) == [MsbOf(b)] + MsbBits(b << 1, 7);
    MsbBitsByte(b);
  }

  /** A data byte's SDA actions: bit 7 from the carry, then the seven `PulseClock` drives from `DataWord`. */
  lemma DataDrives(b: bv8)
    ensures DrivesAll(BitsMsbFirst(b)) == [Drives(LevelOf(MsbOf(b)))] + DrivesAll(ShiftOutAll(DataWord(b), 7))
  {
    DataBitsOut(b);
    DrivesAllCons(MsbOf(b), ShiftOutAll(DataWord(b), 7));
  }

  /** The frame after the events `evs`, each running the thread the entry tables select. */
  function Run(f: Frame, evs: seq<Event>): Frame
    decreases |evs|
  {
    if |evs| == 0 then f else Run(MasterStep(f, evs[0]), evs[1..])
  }

  /** What SDA_out's match register is armed to do after each of the events `evs`. */
  function SdaTrace(f: Frame, evs: seq<Event>): seq<OnMatch>
    decreases |evs|
  {
    if |evs| == 0 then []
    else [MasterStep(f, evs[0]).matches.sda.action] + SdaTrace(MasterStep(f, evs[0]), evs[1..])
  }

  /** The SDA_out actions that drive the levels `bits`, one after another. */
  function DrivesAll(bits: seq<bool>): seq<OnMatch>
    decreases |bits|
  {
    if |bits| == 0 then [] else [Drives(LevelOf(bits[0]))] + DrivesAll(bits[1..])
  }

  /** The SDA_in samples that come with a run of SCL_in rising edges. */
  function Samples(evs: seq<Event>): seq<bool>
    requires AllRises(evs)
    decreases |evs|
  {
    if |evs| == 0 then [] else [evs[0].sdaHigh] + Samples(evs[1..])
  }

  predicate AllRises(evs: seq<Event>)
  {
    forall i | 0 <= i < |evs| :: evs[i].SclInRise?
  }

  /** A rising edge in the data-bit state runs `PulseClock`. */
  lemma RiseRunsPulseClock(f: Frame, erta: bv24, sdaHigh: bool)
    requires f.channels.sclInEnabled && f.channels.sclInFlags == BITS
    ensures MasterStep(f, SclInRise(erta, sdaHigh)) == PulseClockStep(f, erta, sdaHigh)
  {
  }

  /** A rising edge in the ACK state runs `ProcessAck`. */
  lemma RiseRunsProcessAck(f: Frame, erta: bv24, sdaHigh: bool)
    requires f.channels.sclInEnabled && f.channels.sclInFlags == ACK
    ensures MasterStep(f, SclInRise(erta, sdaHigh)) == ProcessAckStep(f, erta, sdaHigh)
  {
  }

  /**
   * While the master writes, each SCL rising edge of the data bits drives the
   * next carry of the working register: `n` edges drive the first `n` levels
   * `ShiftOutAll` gives, and the channels stay in the data-bit state.
   */
  lemma {:induction false} WriteBitsDriven(f: Frame, evs: seq<Event>)
    requires AllRises(evs)
    requires f.channels.sclInEnabled && f.channels.sclInFlags == BITS
    requires !f.engine.reading && |evs| <= f.engine.bitCount
    ensures SdaTrace(f, evs) == DrivesAll(ShiftOutAll(f.engine.workingByte, |evs|))
    ensures var r := Run(f, evs);
      r.engine == f.engine.(bitCount := f.engine.bitCount - |evs|,
                            workingByte := ShiftedBy(f.engine.workingByte, |evs|),
                            nextEdge := r.engine.nextEdge)
      && r.channels == f.channels && r.status == f.status && r.ram == f.ram && r.config == f.config
    decreases |evs|
  {
    if |evs| > 0 {
      var e := evs[0];
      RiseRunsPulseClock(f, e.erta, e.sdaHigh);
      var g := MasterStep(f, e);
      assert AllRises(evs[1..]) by {
        forall i | 0 <= i < |evs[1..]| ensures evs[1..][i].SclInRise? {
          assert evs[1..][i] == evs[i + 1];
        }
      }
      WriteBitsDriven(g, evs[1..]);
      var bits := ShiftOutAll(f.engine.workingByte, |evs|);
      assert bits[0] == TopBit(f.engine.workingByte);
      assert bits[1..] == ShiftOutAll(Shl1(f.engine.workingByte), |evs| - 1);
    }
  }

  lemma AllRisesSuffix(evs: seq<Event>, k: nat)
    requires AllRises(evs) && k <= |evs|
    ensures AllRises(evs[k..]) && AllRises(evs[..k])
  {
    forall i | 0 <= i < |evs[k..]| ensures evs[k..][i].SclInRise? {
      assert evs[k..][i] == evs[k + i];
    }
    forall i | 0 <= i < k ensures evs[..k][i].SclInRise? {
      assert evs[..k][i] == evs[i];
    }
  }

  /** Events one after another: running `a + b` runs `a`, then `b`, and the traces join. */
  lemma {:induction false} RunAppend(f: Frame, a: seq<Event>, b: seq<Event>)
    ensures Run(f, a + b) == Run(Run(f, a), b)
    ensures SdaTrace(f, a + b) == SdaTrace(f, a) + SdaTrace(Run(f, a), b)
    decreases |a|
  {
    if |a| > 0 {
      assert (a + b)[0] == a[0];
      assert (a + b)[1..] == a[1..] + b;
      RunAppend(MasterStep(f, a[0]), a[1..], b);
    } else {
      assert a + b == b;
    }
  }

  lemma {:induction false} SamplesAppend(a: seq<Event>, b: seq<Event>)
    requires AllRises(a) && AllRises(b)
    ensures AllRises(a + b) && Samples(a + b) == Samples(a) + Samples(b)
    decreases |a|
  {
    assert AllRises(a + b) by {
      forall i | 0 <= i < |a + b| ensures (a + b)[i].SclInRise? {
        if i < |a| { assert (a + b)[i] == a[i]; } else { assert (a + b)[i] == b[i - |a|]; }
      }
    }
    if |a| > 0 {
      assert (a + b)[0] == a[0];
      assert (a + b)[1..] == a[1..] + b;
      AllRisesSuffix(a, 1);
      SamplesAppend(a[1..], b);
    } else {
      assert a + b == b;
    }
  }

  /**
   * While the master reads, each SCL rising edge of the data bits shifts the
   * SDA sample into the working register, and SDA stays released.
   */
  lemma {:induction false} ReadBitsSampled(f: Frame, evs: seq<Event>)
    requires AllRises(evs)
    requires f.channels.sclInEnabled && f.channels.sclInFlags == BITS
    requires f.engine.reading && |evs| <= f.engine.bitCount
    ensures var r := Run(f, evs);
      r.engine.workingByte == ShiftInAll(f.engine.workingByte, Samples(evs))
      && r.engine == f.engine.(bitCount := f.engine.bitCount - |evs|, workingByte := r.engine.workingByte,
                               nextEdge := r.engine.nextEdge)
      && r.matches.sda == f.matches.sda
      && r.channels == f.channels && r.status == f.status && r.ram == f.ram && r.config == f.config
    decreases |evs|
  {
    if |evs| > 0 {
      var e := evs[0];
      RiseRunsPulseClock(f, e.erta, e.sdaHigh);
      AllRisesSuffix(evs, 1);
      ReadBitsSampled(MasterStep(f, e), evs[1..]);
    }
  }

  /** One command done and one pending: `DrivesAll` of a prefix bit. */
  lemma DrivesAllCons(b: bool, s: seq<bool>)
    ensures DrivesAll([b] + s) == [Drives(LevelOf(b))] + DrivesAll(s)
  {
    assert ([b] + s)[1..] == s;
  }

  /** Running one event and then more. */
  lemma RunCons(f: Frame, e: Event, evs: seq<Event>)
    ensures Run(f, [e] + evs) == Run(MasterStep(f, e), evs)
    ensures SdaTrace(f, [e] + evs) == [MasterStep(f, e).matches.sda.action] + SdaTrace(MasterStep(f, e), evs)
  {
    assert ([e] + evs)[0] == e;
    assert ([e] + evs)[1..] == evs;
  }

  /** Running a single event. */
  lemma RunOne(f: Frame, e: Event)
    ensures Run(f, [e]) == MasterStep(f, e)
    ensures SdaTrace(f, [e]) == [MasterStep(f, e).matches.sda.action]
  {
    RunCons(f, e, []);
    assert [e] + [] == [e];
  }

  /** A start request runs `StartTransfer`. */
  lemma StartRunsStartTransfer(f: Frame, now: bv24)
    ensures MasterStep(f, StartRequest(now)) == StartTransferStep(f, now)
  {
  }

  /** An SCL_out match in the data-bit state runs `PulseClockIgnore`. */
  lemma MatchRunsPulseClockIgnore(f: Frame, erta: bv24, sdaHigh: bool)
    requires f.channels.sclOutEnabled && f.channels.sclOutFlags == BITS
    ensures MasterStep(f, SclOutMatch(erta, sdaHigh)) == PulseClockIgnoreStep(f, erta, sdaHigh)
  {
  }

  /** The link runs `ProcessAck_Step2`. */
  lemma LinkRunsAckStep2(f: Frame)
    requires f.channels.linkPending
    ensures MasterStep(f, Link) == AckStep2(f)
  {
  }

  /**
   * The START and the first clock cycle: the start request pulls SDA low and
   * the SCL_out match that ends the START drives bit 7 of the first header,
   * leaving its other seven bits to clock.
   */
  lemma HeaderStart(f: Frame, now: bv24, erta: bv24, sdaHigh: bool)
    requires !f.status.inUse && f.channels.sclOutEnabled
    requires f.channels.sclOutFlags == BITS && f.channels.sclInFlags == BITS
    ensures var h := CommandAt(f.config.commands, 0).header;
      var r := Run(f, [StartRequest(now), SclOutMatch(erta, sdaHigh)]);
      SdaTrace(f, [StartRequest(now), SclOutMatch(erta, sdaHigh)]) == [PinLow, Drives(LevelOf(MsbOf(h)))]
      && r.engine.workingByte == HeaderWord(h << 1) && r.engine.bitCount == 7 && !r.engine.reading
      && r.status.inUse && r.channels.sclInEnabled && r.channels.sclInFlags == BITS
  {
    var h := CommandAt(f.config.commands, 0).header;
    StartRunsStartTransfer(f, now);
    var g1 := StartTransferStep(f, now);
    MatchRunsPulseClockIgnore(g1, erta, sdaHigh);
    var g2 := PulseClockIgnoreStep(g1, erta, sdaHigh);
    RunOne(g1, SclOutMatch(erta, sdaHigh));
    RunCons(f, StartRequest(now), [SclOutMatch(erta, sdaHigh)]);
    assert [StartRequest(now)] + [SclOutMatch(erta, sdaHigh)] == [StartRequest(now), SclOutMatch(erta, sdaHigh)];
    HeaderWordShift(h);
  }

  /** The START's SDA action, bit 7 of the header, then its other seven bits: the START and the header. */
  lemma HeaderTrace(h: bv8, start: seq<OnMatch>, bits: seq<OnMatch>)
    requires start == [PinLow, Drives(LevelOf(MsbOf(h)))]
    requires bits == DrivesAll(ShiftOutAll(HeaderWord(h << 1), 7))
    ensures start + bits == [PinLow] + DrivesAll(BitsMsbFirst(h))
  {
    HeaderDrives(h);
    assert start + bits == [PinLow] + ([Drives(LevelOf(MsbOf(h)))] + bits);
  }

  /**
   * A transfer begins with a START: SDA goes low, then the eight bits of the
   * first command's header follow, most significant first, one per SCL cycle
   * (section 3.1.5 of UM10204). All eight clocked, the next SCL rising edge
   * begins the ACK slot.
   */
  lemma HeaderGoesOut(f: Frame, now: bv24, erta: bv24, sdaHigh: bool, evs: seq<Event>)
    requires !f.status.inUse && f.channels.sclOutEnabled
    requires f.channels.sclOutFlags == BITS && f.channels.sclInFlags == BITS
    requires AllRises(evs) && |evs| == 7
    ensures var h := CommandAt(f.config.commands, 0).header;
      SdaTrace(f, [StartRequest(now), SclOutMatch(erta, sdaHigh)] + evs)
      == [PinLow] + DrivesAll(BitsMsbFirst(h))
    ensures var r := Run(f, [StartRequest(now), SclOutMatch(erta, sdaHigh)] + evs);
      r.status.inUse && r.engine.bitCount == 0 && !r.engine.reading
      && r.channels.sclInEnabled && r.channels.sclInFlags == BITS
  {
    var h := CommandAt(f.config.commands, 0).header;
    var pre := [StartRequest(now), SclOutMatch(erta, sdaHigh)];
    HeaderStart(f, now, erta, sdaHigh);
    var g := Run(f, pre);
    WriteBitsDriven(g, evs);
    RunAppend(f, pre, evs);
    HeaderTrace(h, SdaTrace(f, pre), SdaTrace(g, evs));
  }

  /** The SCL_out match that ends a START or a repeated START drives bit 7 of the loaded header. */
  lemma FirstHeaderBit(g: Frame, h: bv8, erta: bv24, sdaHigh: bool)
    requires g.channels.sclOutEnabled && g.channels.sclOutFlags == BITS && g.engine.startFlag
    requires g.engine.workingByte == HeaderWord(h) && g.engine.bitCount == 8 && !g.engine.reading
    ensures var r := MasterStep(g, SclOutMatch(erta, sdaHigh));
      r.matches.sda.action == Drives(LevelOf(MsbOf(h)))
      && r.engine.workingByte == HeaderWord(h << 1) && r.engine.bitCount == 7 && !r.engine.reading
      && r.channels.sclInEnabled == g.channels.sclInEnabled && r.channels.sclInFlags == g.channels.sclInFlags
      && r.status == g.status
  {
    MatchRunsPulseClockIgnore(g, erta, sdaHigh);
    HeaderWordShift(h);
  }

  /** A rising edge in the repeated-START state runs `FinishRepeatedStart`. */
  lemma RiseRunsFinishRepeatedStart(f: Frame, erta: bv24, sdaHigh: bool)
    requires f.channels.sclInEnabled && f.channels.sclInFlags == REPEATED_START
    ensures MasterStep(f, SclInRise(erta, sdaHigh)) == FinishRepeatedStartStep(f, erta)
  {
  }

  /** A rising edge in the STOP state runs `BeginStop`. */
  lemma RiseRunsBeginStop(f: Frame, erta: bv24, sdaHigh: bool)
    requires f.channels.sclInEnabled && f.channels.sclInFlags == STOP
    ensures MasterStep(f, SclInRise(erta, sdaHigh)) == BeginStopStep(f, erta)
  {
  }

  /** An SCL_out match in the STOP state runs `FinishStop`. */
  lemma MatchRunsFinishStop(f: Frame, erta: bv24, sdaHigh: bool)
    requires f.channels.sclOutEnabled && f.channels.sclOutFlags == STOP
    ensures MasterStep(f, SclOutMatch(erta, sdaHigh)) == FinishStopStep(f)
  {
  }

  /** Running three events. */
  lemma RunThree(f: Frame, a: Event, b: Event, c: Event)
    ensures var g1 := MasterStep(f, a);
      var g2 := MasterStep(g1, b);
      Run(f, [a, b]) == g2 && Run(f, [a, b, c]) == MasterStep(g2, c)
      && SdaTrace(f, [a, b, c]) == [g1.matches.sda.action, g2.matches.sda.action, MasterStep(g2, c).matches.sda.action]
  {
    var g1 := MasterStep(f, a);
    var g2 := MasterStep(g1, b);
    RunOne(g2, c);
    RunCons(g1, b, [c]);
    assert [b] + [c] == [b, c];
    RunCons(f, a, [b, c]);
    assert [a] + [b, c] == [a, b, c];
    RunOne(g1, b);
    RunCons(f, a, [b]);
    assert [a] + [b] == [a, b];
  }

  /**
   * The end of a transfer, the STOP (section 3.1.4 of UM10204): after the last
   * ACK slot of the last command the link pulls SDA low while SCL is low; the
   * next SCL rising edge schedules the release of SDA tSU_STO after it, with
   * SCL held high, and the SCL_out match at that time frees the master and
   * interrupts the host.
   */
  lemma TransferEnds(f: Frame, erta: bv24, s: bool, mt: bv24, ms: bool)
    requires f.channels.linkPending && AfterAckChoice(f.engine, f.config.cmdCnt) == Finish
    requires f.channels.sclInEnabled && f.channels.sclInFlags == ACK && f.channels.sclOutFlags == ACK
    ensures SdaTrace(f, [Link, SclInRise(erta, s), SclOutMatch(mt, ms)]) == [PinLow, PinHigh, PinHigh]
    ensures var fall := After(f.engine.nextEdge, f.config.timing.tHigh);
      var g := MasterStep(f, Link);
      g.matches.sclA == Match(fall, PinLow) && g.matches.sda == Match(After(fall, f.config.timing.tHdDat), PinLow)
    ensures var t := After(erta, f.config.timing.tSuSto);
      Run(f, [Link, SclInRise(erta, s)]).matches == Matches(Match(t, PinHigh), Match(t, PinHigh), Match(t, PinHigh))
    ensures var r := Run(f, [Link, SclInRise(erta, s), SclOutMatch(mt, ms)]);
      !r.status.inUse && r.channels.interrupt && !r.channels.sclInEnabled
      && r.engine.sentCnt == f.engine.sentCnt + 1 && r.engine.remaining == 0
      && r.status.errorFlags == f.status.errorFlags && r.config == f.config && r.ram == f.ram
  {
    LinkRunsAckStep2(f);
    AckStep2Finish(f);
    var g1 := AckStep2(f);
    RiseRunsBeginStop(g1, erta, s);
    var g2 := BeginStopStep(g1, erta);
    MatchRunsFinishStop(g2, mt, ms);
    RunThree(f, Link, SclInRise(erta, s), SclOutMatch(mt, ms));
  }

  /**
   * The repeated START and the first clock cycle of the next header: the link
   * releases SDA, the SCL rising edge pulls it low tSU_STA later with SCL left
   * high, and the SCL_out match then drives bit 7 of the next command's header.
   */
  lemma RepeatedStartBegins(f: Frame, erta: bv24, s: bool, mt: bv24, ms: bool)
    requires f.channels.linkPending && AfterAckChoice(f.engine, f.config.cmdCnt) == NextCommand
    requires f.channels.sclInEnabled && f.channels.sclOutEnabled
    ensures var h := CommandAt(f.config.commands, f.engine.current + 1).header;
      SdaTrace(f, [Link, SclInRise(erta, s), SclOutMatch(mt, ms)]) == [PinHigh, PinLow, Drives(LevelOf(MsbOf(h)))]
    ensures var t := After(erta, f.config.timing.tSuSta);
      Run(f, [Link, SclInRise(erta, s)]).matches == Matches(Match(t, NoChange), Match(t, NoChange), Match(t, PinLow))
    ensures var c := CommandAt(f.config.commands, f.engine.current + 1);
      var r := Run(f, [Link, SclInRise(erta, s), SclOutMatch(mt, ms)]);
      r.status == f.status && r.engine.current == f.engine.current + 1
      && r.engine.sentCnt == f.engine.sentCnt + 1 && r.engine.workingByte == HeaderWord(c.header << 1)
      && r.engine.bitCount == 7 && !r.engine.reading
      && r.engine.remaining == c.size && r.engine.workingPtr == c.buffer
      && r.engine.bufReading == HeaderIsRead(c.header)
      && r.channels.sclInEnabled && r.channels.sclInFlags == BITS
  {
    var c := CommandAt(f.config.commands, f.engine.current + 1);
    LinkRunsAckStep2(f);
    AckStep2NextCommand(f);
    var g1 := AckStep2(f);
    RiseRunsFinishRepeatedStart(g1, erta, s);
    var g2 := FinishRepeatedStartStep(g1, erta);
    FirstHeaderBit(g2, c.header, mt, ms);
    RunThree(f, Link, SclInRise(erta, s), SclOutMatch(mt, ms));
  }

  /**
   * Commands joined by a repeated START (section 3.1.10 of UM10204): after the
   * last ACK slot of a command that is not the last, SDA is released while SCL
   * is low and pulled low while SCL is high, and then the header of the next
   * command goes out, most significant bit first, one bit per clock cycle. No
   * STOP comes between the two commands: the master stays in use and its
   * status is unchanged. With `HeaderGoesOut` this covers the header of every
   * command of a combined transfer.
   */
  lemma RepeatedStartHeader(f: Frame, erta: bv24, s: bool, mt: bv24, ms: bool, evs: seq<Event>)
    requires f.channels.linkPending && AfterAckChoice(f.engine, f.config.cmdCnt) == NextCommand
    requires f.channels.sclInEnabled && f.channels.sclOutEnabled
    requires AllRises(evs) && |evs| == 7
    ensures var h := CommandAt(f.config.commands, f.engine.current + 1).header;
      SdaTrace(f, [Link, SclInRise(erta, s), SclOutMatch(mt, ms)] + evs)
      == [PinHigh, PinLow] + DrivesAll(BitsMsbFirst(h))
    ensures var c := CommandAt(f.config.commands, f.engine.current + 1);
      var r := Run(f, [Link, SclInRise(erta, s), SclOutMatch(mt, ms)] + evs);
      r.status == f.status && r.engine.current == f.engine.current + 1
      && r.engine.sentCnt == f.engine.sentCnt + 1 && r.engine.bitCount == 0 && !r.engine.reading
      && r.engine.remaining == c.size && r.engine.workingPtr == c.buffer
      && r.engine.bufReading == HeaderIsRead(c.header)
      && r.channels.sclInEnabled && r.channels.sclInFlags == BITS
  {
    var h := CommandAt(f.config.commands, f.engine.current + 1).header;
    var pre := [Link, SclInRise(erta, s), SclOutMatch(mt, ms)];
    RepeatedStartBegins(f, erta, s, mt, ms);
    var g := Run(f, pre);
    WriteBitsDriven(g, evs);
    RunAppend(f, pre, evs);
    RepeatedStartTrace(h, SdaTrace(f, pre), SdaTrace(g, evs));
  }

  /** SDA released, then the START's action and bit 7 of the header, then its other seven bits. */
  lemma RepeatedStartTrace(h: bv8, start: seq<OnMatch>, bits: seq<OnMatch>)
    requires start == [PinHigh, PinLow, Drives(LevelOf(MsbOf(h)))]
    requires bits == DrivesAll(ShiftOutAll(HeaderWord(h << 1), 7))
    ensures start + bits == [PinHigh, PinLow] + DrivesAll(BitsMsbFirst(h))
  {
    var rest := [PinLow, Drives(LevelOf(MsbOf(h)))];
    HeaderTrace(h, rest, bits);
    assert start == [PinHigh] + rest;
    assert start + bits == [PinHigh] + (rest + bits);
  }

  /**
   * A data byte of a write: the link after the ACK slot drives its bit 7, and
   * the next seven SCL rising edges its other seven bits, so SDA carries the
   * byte the buffer pointer points at, most significant first.
   */
  lemma DataByteSent(f: Frame, evs: seq<Event>)
    requires f.channels.linkPending && AfterAckChoice(f.engine, f.config.cmdCnt) == NextByte
    requires !f.engine.bufReading
    requires f.channels.sclInEnabled && f.channels.sclInFlags == ACK
    requires AllRises(evs) && |evs| == 7
    ensures SdaTrace(f, [Link] + evs) == DrivesAll(BitsMsbFirst(Load(f.ram, f.engine.workingPtr)))
    ensures var r := Run(f, [Link] + evs);
      r.engine.bitCount == 0 && !r.engine.reading && r.engine.workingPtr == f.engine.workingPtr + 1
      && r.engine.remaining == f.engine.remaining - 1 && r.channels.sclInFlags == BITS
  {
    var b := Load(f.ram, f.engine.workingPtr);
    LinkRunsAckStep2(f);
    AckStep2NextByte(f);
    var g := AckStep2(f);
    RunCons(f, Link, evs);
    WriteBitsDriven(g, evs);
    DataDrives(b);
  }

  /**
   * The ACK slot of a read byte: the eighth SCL rising edge samples the last
   * bit and drives ACK while bytes remain and NACK after the last one
   * (section 3.1.6 of UM10204); the next rising edge stores the byte.
   */
  lemma ReadAckSlot(g: Frame, e8: Event, e9: Event)
    requires e8.SclInRise? && e9.SclInRise?
    requires g.channels.sclInEnabled && g.channels.sclInFlags == BITS
    requires g.engine.reading && g.engine.bitCount == 0
    ensures var w := ShiftIn(g.engine.workingByte, e8.sdaHigh);
      var r := Run(g, [e8, e9]);
      r.ram == Store(g.ram, g.engine.workingPtr, Low8(w)) && r.engine.workingPtr == g.engine.workingPtr + 1
      && r.engine.remaining == g.engine.remaining && r.status == g.status
      && SdaTrace(g, [e8, e9])[0] == (if g.engine.remaining > 0 then PinLow else PinHigh)
      && |SdaTrace(g, [e8, e9])| == 2
  {
    RiseRunsPulseClock(g, e8.erta, e8.sdaHigh);
    var g8 := PulseClockStep(g, e8.erta, e8.sdaHigh);
    RiseRunsProcessAck(g8, e9.erta, e9.sdaHigh);
    RunOne(g8, e9);
    RunCons(g, e8, [e9]);
    assert [e8] + [e9] == [e8, e9];
  }

  /**
   * The bits and the ACK slot of a read byte, from the first data bit on:
   * eight rising edges sample the slave's bits, the eighth also drives ACK or
   * NACK, and the ninth stores the byte.
   */
  lemma ReadBitsAndAck(g: Frame, evs: seq<Event>, b: bv8)
    requires g.channels.sclInEnabled && g.channels.sclInFlags == BITS
    requires g.engine.reading && g.engine.bitCount == 7
    requires AllRises(evs) && |evs| == 9
    requires AllRises(evs[..8]) && Samples(evs[..8]) == BitsMsbFirst(b)
    ensures var r := Run(g, evs);
      r.ram == Store(g.ram, g.engine.workingPtr, b) && r.engine.workingPtr == g.engine.workingPtr + 1
      && r.engine.remaining == g.engine.remaining && r.status == g.status
    ensures var t := SdaTrace(g, evs);
      |t| == 9 && t[7] == (if g.engine.remaining > 0 then PinLow else PinHigh)
  {
    AllRisesSuffix(evs, 7);
    var a := evs[..7];
    var e8 := evs[7];
    var e9 := evs[8];
    assert evs == a + [e8, e9];
    ReadBitsSampled(g, a);
    var g7 := Run(g, a);
    ReadAckSlot(g7, e8, e9);
    RunAppend(g, a, [e8, e9]);
    SdaTraceLength(g, a);
    assert evs[..8] == a + [e8];
    ReadSamplesByte(g.engine.workingByte, a, e8, b);
  }

  /**
   * A data byte of a read: after the link releases SDA, eight SCL rising
   * edges sample the slave's bits, the last of them also drives ACK while
   * bytes remain and NACK after the last one, and the rising edge of the ACK
   * slot stores the byte through the buffer pointer and moves the pointer
   * past it.
   */
  lemma ReadByteStored(f: Frame, evs: seq<Event>, b: bv8)
    requires f.channels.linkPending && AfterAckChoice(f.engine, f.config.cmdCnt) == NextByte
    requires f.engine.bufReading
    requires f.channels.sclInEnabled && f.channels.sclInFlags == ACK
    requires AllRises(evs) && |evs| == 9
    requires AllRises(evs[..8]) && Samples(evs[..8]) == BitsMsbFirst(b)
    ensures var r := Run(f, [Link] + evs);
      r.ram == Store(f.ram, f.engine.workingPtr, b) && r.engine.workingPtr == f.engine.workingPtr + 1
      && r.engine.remaining == f.engine.remaining - 1 && r.status == f.status
    ensures var t := SdaTrace(f, [Link] + evs);
      |t| == 10 && t[0] == PinHigh
      && t[8] == (if f.engine.remaining - 1 > 0 then PinLow else PinHigh)
  {
    LinkRunsAckStep2(f);
    AckStep2NextByte(f);
    RunCons(f, Link, evs);
    ReadBitsAndAck(AckStep2(f), evs, b);
  }

  /** The byte assembled from eight samples, the last taken at the start of the ACK slot. */
  lemma ReadSamplesByte(w: bv24, a: seq<Event>, e8: Event, b: bv8)
    requires AllRises(a) && e8.SclInRise?
    requires AllRises(a + [e8]) && Samples(a + [e8]) == BitsMsbFirst(b)
    ensures Low8(ShiftIn(ShiftInAll(w, Samples(a)), e8.sdaHigh)) == b
  {
    assert AllRises([e8]);
    SamplesAppend(a, [e8]);
    var v := ShiftInAll(w, Samples(a));
    assert Samples([e8]) == [e8.sdaHigh] by {
      assert [e8][1..] == [];
    }
    ShiftInAllAppend(w, Samples(a), [e8.sdaHigh]);
    ShiftInOne(v, e8.sdaHigh);
    ShiftInByte(w, b);
  }

  lemma {:induction false} SdaTraceLength(f: Frame, evs: seq<Event>)
    ensures |SdaTrace(f, evs)| == |evs|
    decreases |evs|
  {
    if |evs| > 0 {
      SdaTraceLength(MasterStep(f, evs[0]), evs[1..]);
    }
  }

  /** No thread changes what the host configured: timing, command list and count. */
  lemma {:induction false} RunKeepsConfig(f: Frame, evs: seq<Event>)
    ensures Run(f, evs).config == f.config
    decreases |evs|
  {
    if |evs| > 0 {
      RunKeepsConfig(MasterStep(f, evs[0]), evs[1..]);
    }
  }

  /**
   * Error flags are sticky: until the host asks for them to be latched and
   * cleared, no thread clears a flag another has set.
   */
  lemma {:induction false} RunKeepsErrorFlags(f: Frame, evs: seq<Event>)
    requires forall i | 0 <= i < |evs| :: evs[i] != LatchRequest
    ensures KeepsFlags(f.status.errorFlags, Run(f, evs).status.errorFlags)
    decreases |evs|
  {
    if |evs| > 0 {
      var g := MasterStep(f, evs[0]);
      assert forall i | 0 <= i < |evs[1..]| :: evs[1..][i] != LatchRequest by {
        forall i | 0 <= i < |evs[1..]| ensures evs[1..][i] != LatchRequest {
          assert evs[1..][i] == evs[i + 1];
        }
      }
      RunKeepsErrorFlags(g, evs[1..]);
      KeepsFlagsTrans(f.status.errorFlags, g.status.errorFlags, Run(g, evs[1..]).status.errorFlags);
    }
  }

  /** A free master stays free until the host requests a transfer. */
  lemma {:induction false} RunStaysFree(f: Frame, evs: seq<Event>)
    requires !f.status.inUse
    requires forall i | 0 <= i < |evs| :: !evs[i].StartRequest?
    ensures !Run(f, evs).status.inUse
    decreases |evs|
  {
    if |evs| > 0 {
      assert forall i | 0 <= i < |evs[1..]| :: !evs[1..][i].StartRequest? by {
        forall i | 0 <= i < |evs[1..]| ensures !evs[1..][i].StartRequest? {
          assert evs[1..][i] == evs[i + 1];
        }
      }
      RunStaysFree(MasterStep(f, evs[0]), evs[1..]);
    }
  }

  /** A transfer in progress stays in progress until an SCL_out match ends its STOP. */
  lemma {:induction false} RunStaysBusy(f: Frame, evs: seq<Event>)
    requires f.status.inUse
    requires forall i | 0 <= i < |evs| :: !evs[i].SclOutMatch?
    ensures Run(f, evs).status.inUse
    decreases |evs|
  {
    if |evs| > 0 {
      assert forall i | 0 <= i < |evs[1..]| :: !evs[1..][i].SclOutMatch? by {
        forall i | 0 <= i < |evs[1..]| ensures !evs[1..][i].SclOutMatch? {
          assert evs[1..][i] == evs[i + 1];
        }
      }
      RunStaysBusy(MasterStep(f, evs[0]), evs[1..]);
    }
  }
}
