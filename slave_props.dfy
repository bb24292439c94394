/**
 * Properties of the slave engine over several threads: the header and data
 * bytes it shifts in, the bytes it shifts out, the ACK slots, idle detection,
 * the end of a read, and a whole write message landing in the write buffer.
 */
module SlaveProperties {
  import opened I2CCommon
  import opened SlaveEngine

  /** The frame after `DataBitReady` has run once for each SDA sample in `samples`. */
  function Receive(f: Frame, samples: seq<bool>): Frame
    decreases |samples|
  {
    if |samples| == 0 then f else Receive(DataBitReadyStep(f, samples[0]), samples[1..])
  }

  /** A mode in which `DataBitReady` only shifts, while fewer than eight bits are in. */
  predicate Shifting(m: Mode)
  {
    m == WriteHeader || m == WriteByte
  }

  /**
   * Before the eighth bit, each SCL rising edge shifts the SDA level into the
   * least significant bit of the working register and counts it; nothing
   * else changes.
   */
  lemma {:induction false} ReceiveBits(f: Frame, samples: seq<bool>)
    requires Shifting(f.engine.mode) && f.engine.workingBitCnt + |samples| <= 7
    ensures Receive(f, samples) ==
      f.(engine := f.engine.(workingByte := ShiftInAll(f.engine.workingByte, samples),
                             workingBitCnt := f.engine.workingBitCnt + |samples|))
    decreases |samples|
  {
    if |samples| > 0 {
      ReceiveBits(DataBitReadyStep(f, samples[0]), samples[1..]);
    }
  }

  lemma ReceiveCons(f: Frame, b: bool, samples: seq<bool>)
    ensures Receive(f, [b] + samples) == Receive(DataBitReadyStep(f, b), samples)
  {
    assert ([b] + samples)[0] == b;
    assert ([b] + samples)[1..] == samples;
  }

  /** Seven bits in, the eighth completes the byte and hands it to the header or data check. */
  lemma EighthBit(f: Frame, sdaHigh: bool)
    requires Shifting(f.engine.mode) && f.engine.workingBitCnt == 7
    ensures var h := f.(engine := f.engine.(workingByte := ShiftIn(f.engine.workingByte, sdaHigh),
                                             workingBitCnt := 8),
                        channels := f.channels.(sclDetect := FallingEdge));
      DataBitReadyStep(f, sdaHigh) == if f.engine.mode == WriteHeader then MatchHeader(h) else StoreByte(h)
  {
  }

  /**
   * After a START, the eight bits of a header go into a cleared working
   * register: the register then holds exactly the header, and the header
   * check runs on it.
   */
  lemma HeaderShiftedIn(f: Frame, h: bv8)
    requires f.engine.mode == WriteHeader && f.engine.workingBitCnt == 0 && f.engine.workingByte == 0
    ensures Receive(f, BitsMsbFirst(h)) ==
      MatchHeader(f.(engine := f.engine.(workingByte := h as bv24, workingBitCnt := 8),
                     channels := f.channels.(sclDetect := FallingEdge)))
  {
    var bits := BitsMsbFirst(h);
    ReceiveBits(f, bits[..7]);
    var g := Receive(f, bits[..7]);
    EighthBit(g, bits[7]);
    ReceiveAppend(f, bits[..7], [bits[7]]);
    assert bits[..7] + [bits[7]] == bits;
    ReceiveOne(g, bits[7]);
    ShiftInAllAppend(0, bits[..7], [bits[7]]);
    ShiftInOne(ShiftInAll(0, bits[..7]), bits[7]);
    ShiftInByteExact(h);
  }

  lemma {:induction false} ReceiveAppend(f: Frame, a: seq<bool>, b: seq<bool>)
    ensures Receive(f, a + b) == Receive(Receive(f, a), b)
    decreases |a|
  {
    if |a| > 0 {
      assert (a + b)[0] == a[0];
      assert (a + b)[1..] == a[1..] + b;
      ReceiveAppend(DataBitReadyStep(f, a[0]), a[1..], b);
    } else {
      assert a + b == b;
    }
  }

  lemma ReceiveOne(f: Frame, b: bool)
    ensures Receive(f, [b]) == DataBitReadyStep(f, b)
  {
    assert [b][1..] == [];
  }


  /** Whether a header byte is for this slave: its own address under the mask, or an accepted general call. */
  predicate Addresses(c: SlaveConfig, h: bv8)
  {
    h & c.addressMask == c.address || (h == 0 && c.acceptGeneralCall)
  }

  /** The header test on a register holding exactly the byte `h` is the test on `h` itself. */
  lemma HeaderDecisionOnByte(h: bv8, address: bv8, mask: bv8, acceptGeneralCall: bool)
    ensures HeaderDecision(h as bv24, address, mask, acceptGeneralCall)
      == if h & mask == address || (h == 0 && acceptGeneralCall)
         then (if h & RW_MASK != 0 then AddressedRead else AddressedWrite)
         else if h == START_BYTE then StartByte else NotAddressed
  {
  }

  /** The header check, given what the header test concluded about the register. */
  lemma MatchHeaderOutcome(g: Frame, h: bv8, addressed: bool, read: bool, start: bool)
    requires Low8(g.engine.workingByte) == h
    requires HeaderDecision(g.engine.workingByte, g.config.address, g.config.addressMask, g.config.acceptGeneralCall)
      == if addressed then (if read then AddressedRead else AddressedWrite)
         else if start then StartByte else NotAddressed
    ensures var r := MatchHeader(g);
      var c := g.config;
      (r.engine.mode == AckOut <==> addressed)
      && (addressed ==>
            r.results.header == h && r.engine.readMessage == read
            && r.engine.workingPtr == (if read then c.readBuffer else c.writeBuffer))
      && (r.engine.mode == AckIn <==> !addressed && start)
      && (!addressed && start ==> r.results.header == h && r.engine.readMessage)
      && (r.engine.mode == FindIdle <==> !addressed && !start)
  {
  }

  lemma NarrowWiden(h: bv8)
    ensures Low8(h as bv24) == h
  {
  }

  /**
   * The header of a transfer (sections 3.1.10, 3.1.13 and 3.1.15 of UM10204):
   * the slave acknowledges exactly a header whose masked bits are its address,
   * or the general call when it accepts general calls; it records the header,
   * takes bit 0 as the direction and points at the buffer that direction
   * uses. A START byte is not acknowledged but recorded as a read, so that the
   * NACK that follows sends the slave looking for STOP or repeated START. Any
   * other header sends it back to idle detection.
   */
  lemma HeaderReceived(f: Frame, h: bv8)
    requires f.engine.mode == WriteHeader && f.engine.workingBitCnt == 0 && f.engine.workingByte == 0
    ensures var r := Receive(f, BitsMsbFirst(h));
      var c := f.config;
      var addressed := Addresses(c, h);
      (r.engine.mode == AckOut <==> addressed)
      && (addressed ==>
            r.results.header == h && r.engine.readMessage == (h & RW_MASK != 0)
            && r.engine.workingPtr == (if h & RW_MASK != 0 then c.readBuffer else c.writeBuffer))
      && (r.engine.mode == AckIn <==> !addressed && h == START_BYTE)
      && (!addressed && h == START_BYTE ==> r.results.header == h && r.engine.readMessage)
      && (r.engine.mode == FindIdle <==> !addressed && h != START_BYTE)
      && r.ram == f.ram && r.results.errorFlags == f.results.errorFlags
  {
    HeaderShiftedIn(f, h);
    var g := f.(engine := f.engine.(workingByte := h as bv24, workingBitCnt := 8),
                channels := f.channels.(sclDetect := FallingEdge));
    HeaderChecked(g, h);
  }

  /** The header check on a working register holding exactly the byte `h`, stated on `h`. */
  lemma HeaderChecked(g: Frame, h: bv8)
    requires g.engine.workingByte == h as bv24
    ensures var r := MatchHeader(g);
      var c := g.config;
      var addressed := Addresses(c, h);
      (r.engine.mode == AckOut <==> addressed)
      && (addressed ==>
            r.results.header == h && r.engine.readMessage == (h & RW_MASK != 0)
            && r.engine.workingPtr == (if h & RW_MASK != 0 then c.readBuffer else c.writeBuffer))
      && (r.engine.mode == AckIn <==> !addressed && h == START_BYTE)
      && (!addressed && h == START_BYTE ==> r.results.header == h && r.engine.readMessage)
      && (r.engine.mode == FindIdle <==> !addressed && h != START_BYTE)
  {
    HeaderDecisionOnByte(h, g.config.address, g.config.addressMask, g.config.acceptGeneralCall);
    NarrowWiden(h);
    MatchHeaderOutcome(g, h, Addresses(g.config, h), h & RW_MASK != 0, h == START_BYTE);
  }

  /**
   * Between the data bytes of a write: the slave has released SDA after its
   * ACK and waits for the first bit of the next byte, with SDA not watched.
   */
  predicate AwaitingByte(f: Frame)
  {
    f.engine.mode == WriteByteCheckStop && f.engine.workingBitCnt == 0 && f.engine.workingByte == 0
    && !f.engine.readMessage
    && f.channels.sclDetect == RisingEdge && f.channels.sdaDetect == NoEdge && f.channels.sdaOut == High
  }

  /**
   * What taking data byte `b` of a write means: the byte is stored at the
   * working pointer while the write buffer has room and is otherwise dropped
   * with BUFFER_OVERFLOW; the byte count grows either way.
   */
  function Accepted(f: Frame, b: bv8): Frame
  {
    var cnt := f.engine.workingByteCnt + 1;
    if cnt <= f.config.writeBufferSize then
      f.(engine := f.engine.(workingByteCnt := cnt, workingPtr := f.engine.workingPtr + 1),
         ram := Store(f.ram, f.engine.workingPtr, b))
    else
      f.(engine := f.engine.(workingByteCnt := cnt),
         results := f.results.(errorFlags := WithFlag(f.results.errorFlags, SLAVE_BUFFER_OVERFLOW)))
  }

  /**
   * The nine SCL edges of a data byte: the rise that samples bit 7, the fall
   * that ends the STOP watch (its sample `x` is not used), and the rises of
   * bits 6 to 0.
   */
  function DataByteSamples(b: bv8, x: bool): (r: seq<bool>)
    ensures |r| == 9
  {
    var bits := BitsMsbFirst(b);
    [bits[0], x] + bits[1..]
  }

  /**
   * The last bits of a byte: when they bring the count to eight, the register
   * holds every bit shifted in and the header or data check runs on it.
   */
  lemma ByteCompletes(f: Frame, samples: seq<bool>)
    requires Shifting(f.engine.mode) && |samples| > 0 && f.engine.workingBitCnt + |samples| == 8
    ensures Receive(f, samples) ==
      var h := f.(engine := f.engine.(workingByte := ShiftInAll(f.engine.workingByte, samples), workingBitCnt := 8),
                  channels := f.channels.(sclDetect := FallingEdge));
      if f.engine.mode == WriteHeader then MatchHeader(h) else StoreByte(h)
  {
    var n := |samples| - 1;
    assert samples == samples[..n] + [samples[n]];
    ReceiveAppend(f, samples[..n], [samples[n]]);
    ReceiveBits(f, samples[..n]);
    var g := Receive(f, samples[..n]);
    ReceiveOne(g, samples[n]);
    EighthBit(g, samples[n]);
    ShiftInAllAppend(f.engine.workingByte, samples[..n], [samples[n]]);
    ShiftInOne(ShiftInAll(f.engine.workingByte, samples[..n]), samples[n]);
  }

  /** The first bit of a data byte: it is shifted in, and SDA is watched for STOP or repeated START. */
  lemma FirstDataBit(f: Frame, sdaHigh: bool)
    requires f.engine.mode == WriteByteCheckStop && f.engine.workingBitCnt == 0
    ensures DataBitReadyStep(f, sdaHigh) ==
      f.(engine := f.engine.(mode := WriteByteCheckStop2, workingByte := ShiftIn(f.engine.workingByte, sdaHigh),
                             workingBitCnt := 1),
         channels := f.channels.(sclDetect := FallingEdge, sdaDetect := AnyEdge))
  {
  }

  /** The SCL fall after the first bit ends the watch for STOP or repeated START. */
  lemma StopWatchEnds(f: Frame, x: bool)
    requires f.engine.mode == WriteByteCheckStop2
    ensures DataBitReadyStep(f, x) ==
      f.(engine := f.engine.(mode := WriteByte), channels := f.channels.(sclDetect := RisingEdge, sdaDetect := NoEdge))
  {
  }

  /** A byte's first bit shifted into a cleared register, then the other seven: the byte itself. */
  lemma DataWord(b: bv8)
    ensures ShiftInAll(ShiftIn(0, BitsMsbFirst(b)[0]), BitsMsbFirst(b)[1..]) == b as bv24
  {
    ShiftInByteExact(b);
  }

  /** The first two edges of a data byte: bit 7 is in and the STOP watch is over. */
  lemma DataByteStart(f: Frame, b0: bool, x: bool, rest: seq<bool>)
    requires f.engine.mode == WriteByteCheckStop && f.engine.workingBitCnt == 0
    ensures Receive(f, [b0, x] + rest) ==
      Receive(f.(engine := f.engine.(mode := WriteByte, workingByte := ShiftIn(f.engine.workingByte, b0),
                                     workingBitCnt := 1),
                 channels := f.channels.(sclDetect := RisingEdge, sdaDetect := NoEdge)), rest)
  {
    assert [b0, x] + rest == [b0] + ([x] + rest);
    ReceiveCons(f, b0, [x] + rest);
    FirstDataBit(f, b0);
    ReceiveCons(DataBitReadyStep(f, b0), x, rest);
    StopWatchEnds(DataBitReadyStep(f, b0), x);
  }

  /** The nine edges of a data byte leave exactly the byte in the working register for the store. */
  lemma DataByteShiftedIn(f: Frame, b: bv8, x: bool)
    requires f.engine.mode == WriteByteCheckStop && f.engine.workingBitCnt == 0 && f.engine.workingByte == 0
    ensures Receive(f, DataByteSamples(b, x)) ==
      StoreByte(f.(engine := f.engine.(mode := WriteByte, workingByte := b as bv24, workingBitCnt := 8),
                   channels := f.channels.(sclDetect := FallingEdge, sdaDetect := NoEdge)))
  {
    var bits := BitsMsbFirst(b);
    DataByteStart(f, bits[0], x, bits[1..]);
    ByteCompletes(f.(engine := f.engine.(mode := WriteByte, workingByte := ShiftIn(0, bits[0]), workingBitCnt := 1),
                     channels := f.channels.(sclDetect := RisingEdge, sdaDetect := NoEdge)), bits[1..]);
    DataWord(b);
  }

  /**
   * A data byte of a write and its ACK slot: the slave acknowledges by
   * pulling SDA low, and when the slot ends it has taken the byte as
   * `Accepted` says and waits for the next one. The samples in the ACK slot
   * are not used.
   */
  lemma DataByteAccepted(f: Frame, b: bv8, x: bool, s1: bool, s2: bool)
    requires AwaitingByte(f)
    ensures var r := Receive(f, DataByteSamples(b, x));
      r.engine.mode == AckOut
      && HandleAckStep(r, s1).channels.sdaOut == Low
      && HandleAckStep(HandleAckStep(r, s1), s2) == Accepted(f, b)
      && AwaitingByte(Accepted(f, b))
  {
    DataByteShiftedIn(f, b, x);
    var h := f.(engine := f.engine.(mode := WriteByte, workingByte := b as bv24, workingBitCnt := 8),
                channels := f.channels.(sclDetect := FallingEdge, sdaDetect := NoEdge));
    AckSlotOfWrite(StoreByte(h), s1, s2);
    StoreThenRelease(f, b);
  }

  /**
   * The ACK slot after a byte the master wrote: the slave pulls SDA low, then
   * releases it and clears the working register for the next byte.
   */
  lemma AckSlotOfWrite(g: Frame, s1: bool, s2: bool)
    requires g.engine.mode == AckOut && !g.engine.readMessage
    ensures HandleAckStep(g, s1).channels.sdaOut == Low
    ensures HandleAckStep(HandleAckStep(g, s1), s2) ==
      g.(engine := g.engine.(mode := WriteByteCheckStop, workingBitCnt := 0, workingByte := 0),
         channels := g.channels.(sclDetect := RisingEdge, sdaOut := High))
  {
  }

  /** The store of a complete data byte, followed by the release after its ACK slot, is `Accepted`. */
  lemma StoreThenRelease(f: Frame, b: bv8)
    requires AwaitingByte(f)
    ensures var g := StoreByte(f.(engine := f.engine.(mode := WriteByte, workingByte := b as bv24, workingBitCnt := 8),
                                  channels := f.channels.(sclDetect := FallingEdge, sdaDetect := NoEdge)));
      g.engine.mode == AckOut && !g.engine.readMessage
      && g.(engine := g.engine.(mode := WriteByteCheckStop, workingBitCnt := 0, workingByte := 0),
            channels := g.channels.(sclDetect := RisingEdge, sdaOut := High)) == Accepted(f, b)
  {
    NarrowWiden(b);
    if f.engine.workingByteCnt + 1 <= f.config.writeBufferSize {
      assert Accepted(f, b).ram == Store(f.ram, f.engine.workingPtr, b);
    } else {
      assert Accepted(f, b).ram == f.ram;
    }
  }

  /** The slave state after the data bytes `bs` of a write, each taken as `Accepted` says. */
  function WriteMessage(f: Frame, bs: seq<bv8>): Frame
    decreases |bs|
  {
    if |bs| == 0 then f else WriteMessage(Accepted(f, bs[0]), bs[1..])
  }

  /** How many more bytes the write buffer takes. */
  function Room(f: Frame): nat
  {
    if f.engine.workingByteCnt <= f.config.writeBufferSize
    then f.config.writeBufferSize - f.engine.workingByteCnt else 0
  }

  /** How many of the bytes `bs` the write buffer still takes. */
  function Fitting(f: Frame, bs: seq<bv8>): (k: nat)
    ensures k <= |bs| && k <= Room(f)
    ensures k == |bs| || k == Room(f)
  {
    if |bs| <= Room(f) then |bs| else Room(f)
  }

  /**
   * The data of a write: the bytes that fit are stored in order from the
   * working pointer, the rest are counted and dropped with BUFFER_OVERFLOW,
   * and the byte count covers all of them; nothing else changes.
   */
  lemma {:induction false} WriteMessageStores(f: Frame, bs: seq<bv8>)
    ensures WriteMessage(f, bs) ==
      f.(engine := f.engine.(workingByteCnt := f.engine.workingByteCnt + |bs|,
                             workingPtr := f.engine.workingPtr + Fitting(f, bs)),
         ram := StoreAll(f.ram, f.engine.workingPtr, bs[..Fitting(f, bs)]),
         results := f.results.(errorFlags :=
           if |bs| > Room(f) then WithFlag(f.results.errorFlags, SLAVE_BUFFER_OVERFLOW) else f.results.errorFlags))
    decreases |bs|
  {
    if |bs| == 0 {
      assert bs[..0] == [];
    } else if Room(f) == 0 {
      OverflowTail(f, bs);
      assert bs[..0] == [];
    } else {
      var g := Accepted(f, bs[0]);
      WriteMessageStores(g, bs[1..]);
      WrittenStep(f, bs);
    }
  }

  /** What `WriteMessageStores` says `WriteMessage(f, bs)` is. */
  function Written(f: Frame, bs: seq<bv8>): Frame
  {
    f.(engine := f.engine.(workingByteCnt := f.engine.workingByteCnt + |bs|,
                           workingPtr := f.engine.workingPtr + Fitting(f, bs)),
       ram := StoreAll(f.ram, f.engine.workingPtr, bs[..Fitting(f, bs)]),
       results := f.results.(errorFlags :=
         if |bs| > Room(f) then WithFlag(f.results.errorFlags, SLAVE_BUFFER_OVERFLOW) else f.results.errorFlags))
  }

  /** With room left, accepting the first byte and writing the rest is writing all of them. */
  lemma WrittenStep(f: Frame, bs: seq<bv8>)
    requires Room(f) > 0 && |bs| > 0
    ensures Written(Accepted(f, bs[0]), bs[1..]) == Written(f, bs)
  {
    AcceptedInRoom(f, bs[0]);
    FittingStores(f.ram, f.engine.workingPtr, bs, Fitting(f, bs));
  }

  /** Once the write buffer is full, every further byte is only counted, with BUFFER_OVERFLOW. */
  lemma {:induction false} OverflowTail(f: Frame, bs: seq<bv8>)
    requires Room(f) == 0
    ensures WriteMessage(f, bs) ==
      if |bs| == 0 then f
      else f.(engine := f.engine.(workingByteCnt := f.engine.workingByteCnt + |bs|),
              results := f.results.(errorFlags := WithFlag(f.results.errorFlags, SLAVE_BUFFER_OVERFLOW)))
    decreases |bs|
  {
    if |bs| > 0 {
      AcceptedPastRoom(f, bs[0]);
      var g := Accepted(f, bs[0]);
      OverflowTail(g, bs[1..]);
      WithFlagTwice(f.results.errorFlags, SLAVE_BUFFER_OVERFLOW);
    }
  }

  lemma AcceptedInRoom(f: Frame, b: bv8)
    requires Room(f) > 0
    ensures Accepted(f, b) ==
      f.(engine := f.engine.(workingByteCnt := f.engine.workingByteCnt + 1,
                             workingPtr := f.engine.workingPtr + 1),
         ram := Store(f.ram, f.engine.workingPtr, b))
    ensures Room(Accepted(f, b)) == Room(f) - 1
  {
  }

  /** Storing the first `k` bytes is storing the first one and then `k - 1` of the rest. */
  lemma FittingStores(ram: seq<bv8>, p: nat, bs: seq<bv8>, k: nat)
    requires 0 < k <= |bs|
    ensures StoreAll(ram, p, bs[..k]) == StoreAll(Store(ram, p, bs[0]), p + 1, bs[1..][..k - 1])
  {
    assert bs[..k][0] == bs[0];
    assert bs[..k][1..] == bs[1..][..k - 1];
  }

  lemma AcceptedPastRoom(f: Frame, b: bv8)
    requires Room(f) == 0
    ensures Accepted(f, b) ==
      f.(engine := f.engine.(workingByteCnt := f.engine.workingByteCnt + 1),
         results := f.results.(errorFlags := WithFlag(f.results.errorFlags, SLAVE_BUFFER_OVERFLOW)))
    ensures Room(Accepted(f, b)) == 0
  {
  }

  /** The SDA levels that drive the bits `bits`, first bit first. */
  function LevelsOf(bits: seq<bool>): (r: seq<Level>)
    ensures |r| == |bits|
    decreases |bits|
  {
    if |bits| == 0 then [] else [LevelOf(bits[0])] + LevelsOf(bits[1..])
  }

  lemma LevelsOfCons(x: bool, bits: seq<bool>)
    ensures LevelsOf([x] + bits) == [LevelOf(x)] + LevelsOf(bits)
  {
    assert ([x] + bits)[0] == x;
    assert ([x] + bits)[1..] == bits;
  }

  /** The SCL falls left in a byte the slave sends, up to its ninth level. */
  function BitsLeft(f: Frame): nat
  {
    if f.engine.workingBitCnt <= 9 then 9 - f.engine.workingBitCnt else 0
  }

  /** The frame after `OutputDataBit` has run on `n` successive SCL falls. */
  function Clock(f: Frame, n: nat): Frame
    decreases n
  {
    if n == 0 then f else Clock(OutputDataBitStep(f), n - 1)
  }

  /** The SDA level the slave drives after each of `n` successive SCL falls. */
  function Driven(f: Frame, n: nat): (r: seq<Level>)
    ensures |r| == n
    decreases n
  {
    if n == 0 then [] else [OutputDataBitStep(f).channels.sdaOut] + Driven(OutputDataBitStep(f), n - 1)
  }

  /**
   * While the slave sends a byte, each SCL fall drives the carry of a
   * one-place shift of the working register on SDA; the ninth level ends the
   * byte and the slave turns to the master's ACK.
   */
  lemma {:induction false} DrivenLevels(f: Frame, n: nat)
    requires f.engine.mode == ReadByte && f.engine.workingBitCnt < 9 && f.engine.workingBitCnt + n <= 9
    ensures Driven(f, n) == LevelsOf(ShiftOutAll(f.engine.workingByte, n))
    decreases n
  {
    if n > 0 {
      var w := f.engine.workingByte;
      ClockPeel(f, n);
      var g := SendBit(f);
      assert ShiftOutAll(w, n) == [TopBit(w)] + ShiftOutAll(Shl1(w), n - 1);
      if n > 1 {
        DrivenLevels(g, n - 1);
      } else {
        assert ShiftOutAll(Shl1(w), 0) == [];
      }
      LevelsOfCons(TopBit(w), ShiftOutAll(Shl1(w), n - 1));
    }
  }

  lemma ClockedState(f: Frame, n: nat)
    requires f.engine.mode == ReadByte && f.engine.workingBitCnt < 9 && f.engine.workingBitCnt + n <= 9
    ensures Clock(f, n).engine ==
      f.engine.(workingByte := ShiftedBy(f.engine.workingByte, n),
                workingBitCnt := f.engine.workingBitCnt + n,
                mode := if f.engine.workingBitCnt + n == 9 then AckIn else ReadByte)
    ensures Clock(f, n).results == f.results && Clock(f, n).ram == f.ram
  {
    ClockSends(f, n);
    SentBitsState(f, n);
  }

  /** After the last level of a byte, SDA holds that level and SCL rises are awaited for the ACK. */
  lemma ClockedChannels(f: Frame, n: nat)
    requires f.engine.mode == ReadByte && f.engine.workingBitCnt < 9 && f.engine.workingBitCnt + n <= 9 && n > 0
    ensures Clock(f, n).channels ==
      f.channels.(sdaOut := LevelOf(TopBit(ShiftedBy(f.engine.workingByte, n - 1))),
                  sclDetect := if f.engine.workingBitCnt + n == 9 then RisingEdge else f.channels.sclDetect)
    ensures Clock(f, n).config == f.config
  {
    ClockSends(f, n);
    SentBitsChannels(f, n);
  }

  /** `n` SCL falls while a byte goes out, written out as `n` times `SendBit`. */
  function SendBits(f: Frame, n: nat): Frame
    decreases n
  {
    if n == 0 then f else SendBits(SendBit(f), n - 1)
  }

  lemma {:induction false} ClockSends(f: Frame, n: nat)
    requires f.engine.mode == ReadByte && f.engine.workingBitCnt < 9 && f.engine.workingBitCnt + n <= 9
    ensures Clock(f, n) == SendBits(f, n)
    decreases n
  {
    if n > 0 {
      ClockPeel(f, n);
      if n > 1 {
        ClockSends(SendBit(f), n - 1);
      }
    }
  }

  lemma {:induction false} SentBitsState(f: Frame, n: nat)
    requires f.engine.mode == ReadByte && f.engine.workingBitCnt < 9 && f.engine.workingBitCnt + n <= 9
    ensures SendBits(f, n).engine ==
      f.engine.(workingByte := ShiftedBy(f.engine.workingByte, n),
                workingBitCnt := f.engine.workingBitCnt + n,
                mode := if f.engine.workingBitCnt + n == 9 then AckIn else ReadByte)
    ensures SendBits(f, n).results == f.results && SendBits(f, n).ram == f.ram
    decreases n
  {
    if n > 0 {
      var w := f.engine.workingByte;
      assert ShiftedBy(w, n) == ShiftedBy(Shl1(w), n - 1);
      if n > 1 {
        SentBitsState(SendBit(f), n - 1);
      } else {
        assert ShiftedBy(Shl1(w), 0) == Shl1(w);
      }
    }
  }

  lemma {:induction false} SentBitsChannels(f: Frame, n: nat)
    requires f.engine.mode == ReadByte && f.engine.workingBitCnt < 9 && f.engine.workingBitCnt + n <= 9 && n > 0
    ensures SendBits(f, n).channels ==
      f.channels.(sdaOut := LevelOf(TopBit(ShiftedBy(f.engine.workingByte, n - 1))),
                  sclDetect := if f.engine.workingBitCnt + n == 9 then RisingEdge else f.channels.sclDetect)
    ensures SendBits(f, n).config == f.config
    decreases n
  {
    var w := f.engine.workingByte;
    if n > 1 {
      SentBitsChannels(SendBit(f), n - 1);
      assert ShiftedBy(w, n - 1) == ShiftedBy(Shl1(w), n - 2);
    } else {
      assert ShiftedBy(w, 0) == w;
    }
  }

  /** One SCL fall while a byte goes out, written out: the carry is driven and the register shifts. */
  function SendBit(f: Frame): Frame
  {
    var last := f.engine.workingBitCnt + 1 == 9;
    f.(engine := f.engine.(workingByte := Shl1(f.engine.workingByte),
                           workingBitCnt := f.engine.workingBitCnt + 1,
                           mode := if last then AckIn else ReadByte),
       channels := f.channels.(sdaOut := LevelOf(TopBit(f.engine.workingByte)),
                               sclDetect := if last then RisingEdge else f.channels.sclDetect))
  }

  /** One SCL fall while a byte goes out: the carry is driven and the register shifts. */
  lemma OutputBit(f: Frame)
    requires f.engine.mode == ReadByte && f.engine.workingBitCnt < 9
    ensures OutputDataBitStep(f) == SendBit(f)
  {
  }

  /** The first of `n` SCL falls while a byte goes out is `SendBit`. */
  lemma ClockPeel(f: Frame, n: nat)
    requires f.engine.mode == ReadByte && f.engine.workingBitCnt < 9 && n > 0
    ensures Clock(f, n) == Clock(SendBit(f), n - 1)
    ensures Driven(f, n) == [SendBit(f).channels.sdaOut] + Driven(SendBit(f), n - 1)
  {
    OutputBit(f);
  }

  /** A byte of the read buffer as the slave sends it: its eight bits, then SDA released for the ACK. */
  lemma ReadWordOut(b: bv8)
    ensures [LevelOf(TopBit(LoadForRead(b)))] + LevelsOf(ShiftOutAll(Shl1(LoadForRead(b)), 8))
      == LevelsOf(BitsMsbFirst(b) + [true])
  {
    ReadWordFirst(b);
    HeaderBitsOut((b << 1) | 1);
    ReadByteBits(b);
    LevelsOfCons(MsbOf(b), BitsMsbFirst((b << 1) | 1));
  }

  lemma ReadWordFirst(b: bv8)
    ensures TopBit(LoadForRead(b)) == MsbOf(b)
    ensures Shl1(LoadForRead(b)) == HeaderWord((b << 1) | 1)
  {
  }

  lemma ReadByteBits(b: bv8)
    ensures [MsbOf(b)] + BitsMsbFirst((b << 1) | 1) == BitsMsbFirst(b) + [true]
  {
    ShiftedReadBits(b);
    assert BitsMsbFirst((b << 1) | 1) == BitsMsbFirst(b)[1..] + [true];
  }

  /** Bit i of `(b << 1) | 1` is bit i - 1 of `b`, and bit 0 is set. */
  lemma ShiftedReadBits(b: bv8)
    ensures var c := (b << 1) | 1;
      (c & 0x80 != 0) == (b & 0x40 != 0) && (c & 0x40 != 0) == (b & 0x20 != 0)
      && (c & 0x20 != 0) == (b & 0x10 != 0) && (c & 0x10 != 0) == (b & 0x08 != 0)
      && (c & 0x08 != 0) == (b & 0x04 != 0) && (c & 0x04 != 0) == (b & 0x02 != 0)
      && (c & 0x02 != 0) == (b & 0x01 != 0) && (c & 0x01 != 0)
  {
  }

  /** Past the end of the read buffer the slave loads the same word as for a 0x00 byte. */
  lemma OverflowWord()
    ensures LoadForRead(0) == 0x8000
  {
  }

  /** The byte the next ACK slot of a read sends: the next one of the read buffer, or 0x00 past its end. */
  function NextReadValue(f: Frame): bv8
  {
    if f.engine.workingByteCnt + 1 <= f.config.readBufferSize then Load(f.ram, f.engine.workingPtr) else 0
  }

  /** The end of an ACK slot the master acknowledged: the next byte is loaded and its first bit driven. */
  lemma NextByteLoaded(f: Frame, s: bool)
    requires f.engine.mode == AckComplete && f.engine.readMessage && !f.engine.lastAck
    ensures var g := HandleAckStep(f, s);
      var fits := f.engine.workingByteCnt + 1 <= f.config.readBufferSize;
      g.channels.sdaOut == LevelOf(TopBit(LoadForRead(NextReadValue(f))))
      && g.engine == f.engine.(mode := ReadByte, workingBitCnt := 1,
                               workingByteCnt := f.engine.workingByteCnt + 1,
                               workingByte := Shl1(LoadForRead(NextReadValue(f))),
                               workingPtr := if fits then f.engine.workingPtr + 1 else f.engine.workingPtr)
      && g.results == f.results.(errorFlags :=
           if fits then f.results.errorFlags else WithFlag(f.results.errorFlags, SLAVE_BUFFER_OVERFLOW))
      && g.ram == f.ram && g.config == f.config
      && (!HoldsForData(f) ==> g.channels == f.channels.(sdaOut := LevelOf(TopBit(LoadForRead(NextReadValue(f))))))
  {
    OverflowWord();
  }

  /**
   * A byte of a read (section 3.1.10 of UM10204): after an ACK the slave
   * drives the eight bits of the next byte of its read buffer, most
   * significant first, then releases SDA for the master's ACK. Past the end
   * of the buffer it sends 0x00 and sets BUFFER_OVERFLOW.
   */
  lemma ReadByteSent(f: Frame, s: bool)
    requires f.engine.mode == AckComplete && f.engine.readMessage && !f.engine.lastAck
    ensures var g := HandleAckStep(f, s);
      var fits := f.engine.workingByteCnt + 1 <= f.config.readBufferSize;
      [g.channels.sdaOut] + Driven(g, BitsLeft(g)) == LevelsOf(BitsMsbFirst(NextReadValue(f)) + [true])
      && Clock(g, BitsLeft(g)).engine.mode == AckIn
      && Clock(g, BitsLeft(g)).engine.workingByteCnt == f.engine.workingByteCnt + 1
      && Clock(g, BitsLeft(g)).engine.workingPtr == (if fits then f.engine.workingPtr + 1 else f.engine.workingPtr)
      && Clock(g, BitsLeft(g)).results.errorFlags ==
           (if fits then f.results.errorFlags else WithFlag(f.results.errorFlags, SLAVE_BUFFER_OVERFLOW))
  {
    NextByteLoaded(f, s);
    var g := HandleAckStep(f, s);
    DrivenLevels(g, BitsLeft(g));
    ClockedState(g, BitsLeft(g));
    ReadWordOut(NextReadValue(f));
  }

  /** The SCL fall that ends an ACK slot in which the slave acknowledged. */
  function AckSlot(f: Frame): Frame
  {
    HandleAckStep(HandleAckStep(f, false), false)
  }

  /** Just after a START: the slave waits for the first bit of a header, with SDA not watched. */
  predicate AwaitingHeader(f: Frame)
  {
    f.engine.mode == WriteHeader && f.engine.workingBitCnt == 0 && f.engine.workingByte == 0
    && f.engine.workingByteCnt == 0 && f.channels.sdaDetect == NoEdge
  }

  /**
   * A START condition on an idle bus (section 3.1.4 of UM10204): SDA falls
   * while SCL is high, then SCL falls, and the slave waits for a header.
   */
  lemma StartCondition(f: Frame)
    requires f.engine.mode == Idle
    ensures var g := TransferStartSclStep(TransferStartSdaStep(f, true));
      AwaitingHeader(g) && g.results == f.results && g.config == f.config && g.ram == f.ram
  {
  }

  /** A repeated START seen during the STOP watch also leads to a header. */
  lemma RepeatedStartCondition(f: Frame)
    ensures var g := TransferStartSclStep(FoundRepeatedStartStep(f, true));
      AwaitingHeader(g) && g.results == f.results.(byteCnt := f.engine.workingByteCnt)
      && g.config == f.config && g.ram == f.ram
  {
  }

  /**
   * The header of a write addressed to this slave and its ACK slot: the
   * slave then waits for the first data byte, with the working pointer at the
   * start of the write buffer and no byte counted.
   */
  lemma WriteHeaderAcked(f: Frame, h: bv8)
    requires AwaitingHeader(f) && Addresses(f.config, h) && h & RW_MASK == 0
    ensures var g := AckSlot(Receive(f, BitsMsbFirst(h)));
      AwaitingByte(g) && g.engine.workingByteCnt == 0 && g.engine.workingPtr == f.config.writeBuffer
      && g.results == f.results.(header := h) && g.config == f.config && g.ram == f.ram
  {
    HeaderShiftedIn(f, h);
    var m := f.(engine := f.engine.(workingByte := h as bv24, workingBitCnt := 8),
                channels := f.channels.(sclDetect := FallingEdge));
    HeaderChecked(m, h);
    HeaderWriteState(m, h);
    AckSlotOfWrite(MatchHeader(m), false, false);
  }

  /** On an addressed write header, the header check changes only the mode, direction, pointer and header. */
  lemma HeaderWriteState(m: Frame, h: bv8)
    requires m.engine.workingByte == h as bv24 && Addresses(m.config, h) && h & RW_MASK == 0
    ensures MatchHeader(m) ==
      m.(engine := m.engine.(mode := AckOut, readMessage := false, workingPtr := m.config.writeBuffer),
         results := m.results.(header := h))
  {
    HeaderDecisionOnByte(h, m.config.address, m.config.addressMask, m.config.acceptGeneralCall);
    NarrowWiden(h);
  }

  /** The frame after the data bytes `bs` of a write went over the bus, each with its ACK slot. */
  function ReceiveWrite(f: Frame, bs: seq<bv8>): Frame
    decreases |bs|
  {
    if |bs| == 0 then f
    else ReceiveWrite(AckSlot(Receive(f, DataByteSamples(bs[0], MsbOf(bs[0])))), bs[1..])
  }

  /** The data bytes of a write, thread by thread, are taken exactly as `WriteMessage` says. */
  lemma {:induction false} WriteReceived(f: Frame, bs: seq<bv8>)
    requires AwaitingByte(f)
    ensures ReceiveWrite(f, bs) == WriteMessage(f, bs)
    decreases |bs|
  {
    if |bs| > 0 {
      DataByteAccepted(f, bs[0], MsbOf(bs[0]), false, false);
      WriteReceived(Accepted(f, bs[0]), bs[1..]);
    }
  }

  /**
   * A STOP after a data byte's ACK slot (section 3.1.4 of UM10204): SCL
   * rises with SDA low, which the slave takes as a first data bit and then
   * watches SDA; SDA rises while SCL is high. The slave reports the byte
   * count, signals the host and is idle; a repeated START instead leads to a
   * new header.
   */
  lemma WriteEndsAtStop(f: Frame)
    requires AwaitingByte(f)
    ensures var g := DataBitReadyStep(f, false);
      g.engine.mode == WriteByteCheckStop2 && g.channels.sdaDetect == AnyEdge
      && var e := FoundStopStep(g, true);
      e.engine.mode == Idle && e.results == f.results.(byteCnt := f.engine.workingByteCnt)
      && e.channels.sdaInInterrupt && e.ram == f.ram && e.config == f.config
  {
  }

  /**
   * A write transfer as the slave's threads see it: START on an idle bus,
   * the header and its ACK slot, the data bytes each with its ACK slot, and
   * STOP.
   */
  function WriteTransfer(f: Frame, h: bv8, bs: seq<bv8>): Frame
  {
    var g := TransferStartSclStep(TransferStartSdaStep(f, true));
    var a := AckSlot(Receive(g, BitsMsbFirst(h)));
    FoundStopStep(DataBitReadyStep(ReceiveWrite(a, bs), false), true)
  }

  /**
   * A write to this slave, end to end: the bytes that fit in the write
   * buffer are in it, in order, from its start; the byte count the host
   * reads is the number of bytes the master sent; BUFFER_OVERFLOW is set
   * exactly when the master sent more than the buffer holds; the slave is
   * idle again.
   */
  lemma WriteTransferStores(f: Frame, h: bv8, bs: seq<bv8>)
    requires f.engine.mode == Idle && Addresses(f.config, h) && h & RW_MASK == 0
    ensures var e := WriteTransfer(f, h, bs);
      var c := f.config;
      var k := if |bs| <= c.writeBufferSize then |bs| else c.writeBufferSize;
      e.engine.mode == Idle && e.results.byteCnt == |bs| && e.results.header == h
      && e.ram == StoreAll(f.ram, c.writeBuffer, bs[..k])
      && e.results.errorFlags ==
           (if |bs| > c.writeBufferSize then WithFlag(f.results.errorFlags, SLAVE_BUFFER_OVERFLOW)
            else f.results.errorFlags)
      && e.channels.sdaInInterrupt && e.config == c
  {
    StartCondition(f);
    var g := TransferStartSclStep(TransferStartSdaStep(f, true));
    WriteHeaderAcked(g, h);
    WriteDataThenStop(AckSlot(Receive(g, BitsMsbFirst(h))), bs);
  }

  /** The data bytes of a write and the STOP, from the first data byte on. */
  lemma WriteDataThenStop(a: Frame, bs: seq<bv8>)
    requires AwaitingByte(a) && a.engine.workingByteCnt == 0 && a.engine.workingPtr == a.config.writeBuffer
    ensures var e := FoundStopStep(DataBitReadyStep(ReceiveWrite(a, bs), false), true);
      var c := a.config;
      var k := if |bs| <= c.writeBufferSize then |bs| else c.writeBufferSize;
      e.engine.mode == Idle
      && e.results == a.results.(byteCnt := |bs|, errorFlags :=
           if |bs| > c.writeBufferSize then WithFlag(a.results.errorFlags, SLAVE_BUFFER_OVERFLOW)
           else a.results.errorFlags)
      && e.ram == StoreAll(a.ram, c.writeBuffer, bs[..k])
      && e.channels.sdaInInterrupt && e.config == c
  {
    WriteReceived(a, bs);
    WriteMessageStores(a, bs);
    assert Room(a) == a.config.writeBufferSize;
    WriteEndsAtStop(WriteMessage(a, bs));
  }

  /**
   * Data-wait mode, first byte of a read: the ACK slot ends with SCL held
   * low and a data request to the host.
   */
  lemma DataWaitHolds(f: Frame, s: bool)
    requires f.engine.mode == AckComplete && HoldsForData(f) && !f.engine.lastAck
    ensures var g := HandleAckStep(f, s);
      g.channels.sclOut == Low && g.channels.sclInInterrupt && g.engine.mode == ReadByte
  {
  }

  /**
   * Data ready from the host, whatever it wrote into the RAM while SCL was
   * held: the slave sends the first byte of the read buffer as it is now,
   * and SCL is released tSU_DAT later.
   */
  lemma DataReadyResends(g: Frame, now: bv24)
    requires g.engine.mode == ReadByte
    ensures var h := ReadDataReadyStep(g, now);
      [h.channels.sdaOut] + Driven(h, BitsLeft(h)) == LevelsOf(BitsMsbFirst(Load(g.ram, g.config.readBuffer)) + [true])
      && Clock(h, BitsLeft(h)).engine.mode == AckIn
      && Clock(h, BitsLeft(h)).engine.workingPtr == g.config.readBuffer + 1
      && h.channels.scheduled == g.channels.scheduled + [Drive(SCL, After(now, g.config.tSuDat), High)]
  {
    var b := Load(g.ram, g.config.readBuffer);
    var r := ReloadReadBuffer(g, now);
    OutputBit(r);
    var h := ReadDataReadyStep(g, now);
    assert h == OutputDataBitStep(r);
    DrivenLevels(h, BitsLeft(h));
    ClockedState(h, BitsLeft(h));
    ReadWordOut(b);
  }

  /** One byte of a read and the master's ACK or NACK after it. */
  function ByteRead(f: Frame, ack: bool): Frame
  {
    var g := HandleAckStep(f, false);
    HandleAckStep(Clock(g, BitsLeft(g)), ack)
  }

  /** The SDA levels the slave drives for one byte of a read: eight bits, then SDA released. */
  function ByteLevels(f: Frame): seq<Level>
  {
    var g := HandleAckStep(f, false);
    [g.channels.sdaOut] + Driven(g, BitsLeft(g))
  }

  /** The SDA levels of a read, one entry of `nacks` per byte: true where the master does not acknowledge. */
  function ReadLevels(f: Frame, nacks: seq<bool>): seq<Level>
    decreases |nacks|
  {
    if |nacks| == 0 then [] else ByteLevels(f) + ReadLevels(ByteRead(f, nacks[0]), nacks[1..])
  }

  /** The frame after a read, one entry of `nacks` per byte. */
  function ReadFrame(f: Frame, nacks: seq<bool>): Frame
    decreases |nacks|
  {
    if |nacks| == 0 then f else ReadFrame(ByteRead(f, nacks[0]), nacks[1..])
  }

  /** The bytes a read of `n` bytes sends: the read buffer from the working pointer, and 0x00 past its end. */
  function ReadValues(f: Frame, n: nat): (r: seq<bv8>)
    ensures |r| == n
  {
    seq(n, i requires 0 <= i < n =>
      if f.engine.workingByteCnt + i + 1 <= f.config.readBufferSize then Load(f.ram, f.engine.workingPtr + i) else 0)
  }

  /** The SDA levels of the bytes `bs` on the wire: each byte's bits, most significant first, then the ACK slot released. */
  function Frames(bs: seq<bv8>): seq<Level>
    decreases |bs|
  {
    if |bs| == 0 then [] else LevelsOf(BitsMsbFirst(bs[0]) + [true]) + Frames(bs[1..])
  }

  /**
   * One byte of a read and its ACK slot, as a whole: the byte count grows,
   * the pointer moves on while the buffer has data, the working register is
   * empty again, SDA is released and the master's ACK level is recorded.
   */
  function Sent(f: Frame, nack: bool): Frame
  {
    var fits := f.engine.workingByteCnt + 1 <= f.config.readBufferSize;
    f.(engine := f.engine.(mode := AckComplete, lastAck := nack, workingBitCnt := 9, workingByte := 0,
                           workingByteCnt := f.engine.workingByteCnt + 1,
                           workingPtr := if fits then f.engine.workingPtr + 1 else f.engine.workingPtr),
       results := f.results.(errorFlags :=
         if fits then f.results.errorFlags else WithFlag(f.results.errorFlags, SLAVE_BUFFER_OVERFLOW)),
       channels := f.channels.(sdaOut := High, sclDetect := FallingEdge))
  }

  /** After the nine levels of a read byte the working register is empty, and the ninth level was a one. */
  lemma ReadWordTail(b: bv8)
    ensures TopBit(ShiftedBy(Shl1(LoadForRead(b)), 7))
    ensures ShiftedBy(Shl1(LoadForRead(b)), 8) == 0
  {
  }

  /** In a read, after an ACK slot the master acknowledged, with no wait for the host. */
  predicate Sending(f: Frame)
  {
    f.engine.mode == AckComplete && f.engine.readMessage && !f.engine.lastAck && !HoldsForData(f)
  }

  /** One byte of a read and the master's ACK slot after it, thread by thread, is `Sent`. */
  lemma ByteReadExact(f: Frame, nack: bool)
    requires Sending(f)
    ensures ByteRead(f, nack) == Sent(f, nack)
    ensures ByteLevels(f) == LevelsOf(BitsMsbFirst(NextReadValue(f)) + [true])
  {
    NextByteLoaded(f, false);
    ReadByteSent(f, false);
    var g := HandleAckStep(f, false);
    assert BitsLeft(g) == 8;
    ClockedState(g, 8);
    ClockedChannels(g, 8);
    ReadWordTail(NextReadValue(f));
    AckInSampled(Clock(g, 8), nack);
  }

  /** The master's ACK slot after a byte the slave sent: its SDA level is recorded and nothing else changes. */
  lemma AckInSampled(f: Frame, ack: bool)
    requires f.engine.mode == AckIn
    ensures var r := HandleAckStep(f, ack);
      r.engine == f.engine.(mode := AckComplete, lastAck := ack)
      && r.channels == f.channels.(sclDetect := FallingEdge)
      && r.results == f.results && r.config == f.config && r.ram == f.ram
  {
  }

  /**
   * A read of several bytes (section 3.1.10 of UM10204): while the master
   * acknowledges, the slave sends the read buffer byte after byte from the
   * working pointer, 0x00 once it is exhausted.
   */
  lemma {:induction false} ReadMessageSent(f: Frame, nacks: seq<bool>)
    requires Sending(f)
    requires forall i :: 0 <= i < |nacks| - 1 ==> !nacks[i]
    ensures ReadLevels(f, nacks) == Frames(ReadValues(f, |nacks|))
  {
    ReadLevelsSent(f, nacks);
    SentLevelsValues(f, nacks);
  }

  /** The levels of `Sent` transitions: each byte's value, most significant bit first, and a released ACK slot. */
  function SentLevels(f: Frame, nacks: seq<bool>): seq<Level>
    decreases |nacks|
  {
    if |nacks| == 0 then []
    else LevelsOf(BitsMsbFirst(NextReadValue(f)) + [true]) + SentLevels(Sent(f, nacks[0]), nacks[1..])
  }

  lemma {:induction false} ReadLevelsSent(f: Frame, nacks: seq<bool>)
    requires Sending(f)
    requires forall i :: 0 <= i < |nacks| - 1 ==> !nacks[i]
    ensures ReadLevels(f, nacks) == SentLevels(f, nacks)
    decreases |nacks|
  {
    if |nacks| > 0 {
      var g := Sent(f, nacks[0]);
      ReadLevelsStep(f, nacks);
      SentLevelsStep(f, nacks);
      if |nacks| > 1 {
        StillSending(f, nacks);
        ReadLevelsSent(g, nacks[1..]);
      } else {
        assert ReadLevels(g, nacks[1..]) == [] == SentLevels(g, nacks[1..]);
      }
    }
  }

  lemma SentLevelsStep(f: Frame, nacks: seq<bool>)
    requires |nacks| > 0
    ensures SentLevels(f, nacks) ==
      LevelsOf(BitsMsbFirst(NextReadValue(f)) + [true]) + SentLevels(Sent(f, nacks[0]), nacks[1..])
  {
  }

  /** After a byte the master acknowledged, the slave is still sending, and the rest of the read is acknowledged too. */
  lemma StillSending(f: Frame, nacks: seq<bool>)
    requires Sending(f)
    requires forall i :: 0 <= i < |nacks| - 1 ==> !nacks[i]
    requires |nacks| > 1
    ensures Sending(Sent(f, nacks[0]))
    ensures forall i :: 0 <= i < |nacks[1..]| - 1 ==> !nacks[1..][i]
  {
    assert !nacks[0];
    forall i | 0 <= i < |nacks[1..]| - 1
      ensures !nacks[1..][i]
    {
      assert nacks[1..][i] == nacks[i + 1];
    }
  }

  lemma {:induction false} SentLevelsValues(f: Frame, nacks: seq<bool>)
    ensures SentLevels(f, nacks) == Frames(ReadValues(f, |nacks|))
    decreases |nacks|
  {
    if |nacks| > 0 {
      var g := Sent(f, nacks[0]);
      var v := ReadValues(f, |nacks|);
      FramesCons(v);
      ReadValuesNext(f, g, |nacks| - 1);
      SentLevelsValues(g, nacks[1..]);
    }
  }

  lemma ReadLevelsStep(f: Frame, nacks: seq<bool>)
    requires Sending(f)
    requires |nacks| > 0
    ensures ReadLevels(f, nacks) ==
      LevelsOf(BitsMsbFirst(NextReadValue(f)) + [true]) + ReadLevels(Sent(f, nacks[0]), nacks[1..])
  {
    ByteReadExact(f, nacks[0]);
  }

  lemma ReadFrameStep(f: Frame, nacks: seq<bool>)
    requires Sending(f)
    requires |nacks| > 0
    ensures ReadFrame(f, nacks) == ReadFrame(Sent(f, nacks[0]), nacks[1..])
  {
    ByteReadExact(f, nacks[0]);
  }

  lemma FramesCons(v: seq<bv8>)
    requires |v| > 0
    ensures Frames(v) == LevelsOf(BitsMsbFirst(v[0]) + [true]) + Frames(v[1..])
  {
  }

  /** `Sent` over every byte of a read, one entry of `nacks` per byte. */
  function SentAll(f: Frame, nacks: seq<bool>): Frame
    decreases |nacks|
  {
    if |nacks| == 0 then f else SentAll(Sent(f, nacks[0]), nacks[1..])
  }

  /** While the master acknowledges, every byte of a read is one `Sent` transition. */
  lemma {:induction false} ReadFrameSent(f: Frame, nacks: seq<bool>)
    requires Sending(f)
    requires forall i :: 0 <= i < |nacks| - 1 ==> !nacks[i]
    ensures ReadFrame(f, nacks) == SentAll(f, nacks)
    decreases |nacks|
  {
    if |nacks| > 0 {
      var g := Sent(f, nacks[0]);
      ReadFrameStep(f, nacks);
      assert SentAll(f, nacks) == SentAll(g, nacks[1..]);
      if |nacks| > 1 {
        StillSending(f, nacks);
        ReadFrameSent(g, nacks[1..]);
      } else {
        assert ReadFrame(g, nacks[1..]) == g == SentAll(g, nacks[1..]);
      }
    }
  }

  /**
   * The state after a read of several bytes: the byte count covers every
   * byte sent, BUFFER_OVERFLOW is set when that passes the read buffer's
   * size, and the last ACK slot's level is recorded.
   */
  lemma {:induction false} ReadFrameState(f: Frame, nacks: seq<bool>)
    requires Sending(f)
    requires forall i :: 0 <= i < |nacks| - 1 ==> !nacks[i]
    ensures var r := ReadFrame(f, nacks);
      r.engine.workingByteCnt == f.engine.workingByteCnt + |nacks|
      && r.engine.readMessage && r.config == f.config && r.ram == f.ram
      && (|nacks| > 0 ==> r.engine.mode == AckComplete && r.engine.lastAck == nacks[|nacks| - 1])
      && r.results == f.results.(errorFlags :=
           if |nacks| > 0 && f.engine.workingByteCnt + |nacks| > f.config.readBufferSize
           then WithFlag(f.results.errorFlags, SLAVE_BUFFER_OVERFLOW) else f.results.errorFlags)
  {
    ReadFrameSent(f, nacks);
    SentAllState(f, nacks);
  }

  lemma {:induction false} SentAllState(f: Frame, nacks: seq<bool>)
    ensures var r := SentAll(f, nacks);
      r.engine.workingByteCnt == f.engine.workingByteCnt + |nacks|
      && r.engine.readMessage == f.engine.readMessage && r.config == f.config && r.ram == f.ram
      && (|nacks| > 0 ==> r.engine.mode == AckComplete && r.engine.lastAck == nacks[|nacks| - 1])
      && r.results == f.results.(errorFlags :=
           if |nacks| > 0 && f.engine.workingByteCnt + |nacks| > f.config.readBufferSize
           then WithFlag(f.results.errorFlags, SLAVE_BUFFER_OVERFLOW) else f.results.errorFlags)
    decreases |nacks|
  {
    if |nacks| > 0 {
      var g := Sent(f, nacks[0]);
      SentAllState(g, nacks[1..]);
      var fits := f.engine.workingByteCnt + 1 <= f.config.readBufferSize;
      var over := |nacks| > 1 && f.engine.workingByteCnt + |nacks| > f.config.readBufferSize;
      assert g.results == f.results.(errorFlags := g.results.errorFlags);
      FlagsAfterRead(f.results.errorFlags, fits, over);
    }
  }

  /** The values the rest of a read sends, after its first byte. */
  lemma ReadValuesNext(f: Frame, g: Frame, n: nat)
    requires g.engine.workingByteCnt == f.engine.workingByteCnt + 1 && g.config == f.config && g.ram == f.ram
    requires g.engine.workingPtr ==
      (if f.engine.workingByteCnt + 1 <= f.config.readBufferSize then f.engine.workingPtr + 1 else f.engine.workingPtr)
    ensures ReadValues(f, n + 1)[1..] == ReadValues(g, n)
  {
  }

  /** The overflow flag after the first byte and after the rest combine to the flag after the whole read. */
  lemma FlagsAfterRead(flags: bv8, fits: bool, over: bool)
    ensures var first := if fits then flags else WithFlag(flags, SLAVE_BUFFER_OVERFLOW);
      (if over then WithFlag(first, SLAVE_BUFFER_OVERFLOW) else first)
      == (if over || !fits then WithFlag(flags, SLAVE_BUFFER_OVERFLOW) else flags)
  {
    WithFlagTwice(flags, SLAVE_BUFFER_OVERFLOW);
  }

  /**
   * The end of a read (section 3.1.10 of UM10204): after the master's NACK
   * the slave releases SDA, then on the next SCL rise watches SDA; a rise of
   * SDA with SCL high is the STOP, after which it reports the byte count and
   * is idle. If SCL falls again first, the STOP failed.
   */
  lemma ReadEndsAtStop(f: Frame)
    requires f.engine.mode == AckIn && f.engine.readMessage
    ensures var g := OutputDataBitStep(HandleAckStep(HandleAckStep(f, true), false));
      g.engine.mode == ReadFindStop2 && g.channels.sdaDetect == AnyEdge
      && var e := FoundStopStep(g, true);
      e.engine.mode == Idle && e.results == f.results.(byteCnt := f.engine.workingByteCnt)
      && e.channels.sdaInInterrupt
      && var x := OutputDataBitStep(g);
      x.engine.mode == FindIdle && x.results.errorFlags == WithFlag(f.results.errorFlags, SLAVE_STOP_FAILED)
  {
    AckInSampled(f, true);
    var g1 := HandleAckStep(f, true);
    AfterNack(g1);
    var g2 := HandleAckStep(g1, false);
    WatchForStop(g2);
  }

  /** The end of the ACK slot after a NACK: the slave looks for STOP or repeated START. */
  lemma AfterNack(f: Frame)
    requires f.engine.mode == AckComplete && f.engine.readMessage && f.engine.lastAck
    ensures var r := HandleAckStep(f, false);
      r.engine == f.engine.(mode := ReadFindStop) && r.results == f.results
  {
  }

  /** The SCL rise after a NACK: SDA is watched for STOP or repeated START. */
  lemma WatchForStop(f: Frame)
    requires f.engine.mode == ReadFindStop
    ensures var r := OutputDataBitStep(f);
      r.engine == f.engine.(mode := ReadFindStop2) && r.results == f.results && r.channels.sdaDetect == AnyEdge
  {
  }

  /** The threads of the slave engine, with what each one samples. */
  datatype Thread =
    | InitThread
    | ShutdownThread
    | LatchThread
    | IdlePassThread
    | IdleFailThread
    | StartSdaThread(sclHigh: bool)
    | StartSclThread
    | DataBitThread(sdaHigh: bool)
    | OutputBitThread
    | AckThread(sdaHigh: bool)
    | StopThread(sclHigh: bool)
    | RepeatedStartThread(sclHigh: bool)
    | DataReadyThread(now: bv24)

  /** One thread run on the frame. */
  function RunThread(f: Frame, t: Thread): Frame
  {
    match t
    case InitThread => InitStep(f)
    case ShutdownThread => ShutdownStep(f)
    case LatchThread => LatchAndClearStep(f)
    case IdlePassThread => IdleDetectPassStep(f)
    case IdleFailThread => IdleDetectFailStep(f)
    case StartSdaThread(sclHigh) => TransferStartSdaStep(f, sclHigh)
    case StartSclThread => TransferStartSclStep(f)
    case DataBitThread(sdaHigh) => DataBitReadyStep(f, sdaHigh)
    case OutputBitThread => OutputDataBitStep(f)
    case AckThread(sdaHigh) => HandleAckStep(f, sdaHigh)
    case StopThread(sclHigh) => FoundStopStep(f, sclHigh)
    case RepeatedStartThread(sclHigh) => FoundRepeatedStartStep(f, sclHigh)
    case DataReadyThread(now) => ReadDataReadyStep(f, now)
  }

  /** Threads run one after another. */
  function RunThreads(f: Frame, ts: seq<Thread>): Frame
    decreases |ts|
  {
    if |ts| == 0 then f else RunThreads(RunThread(f, ts[0]), ts[1..])
  }

  /** No thread writes the configuration the host put in the frame. */
  lemma ThreadKeepsConfig(f: Frame, t: Thread)
    ensures RunThread(f, t).config == f.config
  {
    if t != LatchThread {
      ThreadRaises(f, t);
    }
  }

  /**
   * Error flags are sticky: no thread but `LatchAndClearErrorFlags` clears
   * one, so the host sees every error raised since it last latched them.
   */
  lemma ThreadKeepsFlags(f: Frame, t: Thread)
    requires t != LatchThread
    ensures KeepsFlags(f.results.errorFlags, RunThread(f, t).results.errorFlags)
  {
    ThreadRaises(f, t);
    RaisesAtMostKeeps(f, RunThread(f, t), FlagOf(t));
  }

  /** The one error flag a thread can raise; 0 for the threads that raise none. */
  function FlagOf(t: Thread): bv8
  {
    match t
    case StartSclThread => SLAVE_INVALID_START
    case DataBitThread(_) => SLAVE_BUFFER_OVERFLOW
    case OutputBitThread => SLAVE_STOP_FAILED
    case AckThread(_) => SLAVE_BUFFER_OVERFLOW
    case StopThread(_) => SLAVE_STOP_FAILED
    case RepeatedStartThread(_) => SLAVE_INVALID_START
    case DataReadyThread(_) => SLAVE_STOP_FAILED
    case _ => 0
  }

  lemma ThreadRaises(f: Frame, t: Thread)
    requires t != LatchThread
    ensures RaisesAtMost(f, RunThread(f, t), FlagOf(t))
  {
    match t
    case StartSclThread => StartSclRaises(f);
    case DataBitThread(s) => DataBitRaises(f, s);
    case OutputBitThread => OutputBitRaises(f);
    case AckThread(s) => AckRaises(f, s);
    case StopThread(h) => StopRaises(f, h);
    case RepeatedStartThread(h) => RepeatedStartRaises(f, h);
    case DataReadyThread(now) => DataReadyRaises(f, now);
    case InitThread => assert RunThread(f, t) == InitStep(f);
    case ShutdownThread => assert RunThread(f, t) == ShutdownStep(f);
    case LatchThread => assert false;
    case IdlePassThread => assert RunThread(f, t) == IdleDetectPassStep(f);
    case IdleFailThread => assert RunThread(f, t) == IdleDetectFailStep(f);
    case StartSdaThread(h) => assert RunThread(f, t) == TransferStartSdaStep(f, h);
  }

  /** A thread that keeps the configuration and at most raises `flag`. */
  predicate RaisesAtMost(f: Frame, r: Frame, flag: bv8)
  {
    r.config == f.config
    && (r.results.errorFlags == f.results.errorFlags
        || r.results.errorFlags == WithFlag(f.results.errorFlags, flag))
  }

  lemma RaisesAtMostKeeps(f: Frame, r: Frame, flag: bv8)
    requires RaisesAtMost(f, r, flag)
    ensures r.config == f.config && KeepsFlags(f.results.errorFlags, r.results.errorFlags)
  {
    WithFlagKeeps(f.results.errorFlags, flag);
  }

  lemma StartSclRaises(f: Frame)
    ensures RaisesAtMost(f, TransferStartSclStep(f), SLAVE_INVALID_START)
  {
  }

  lemma DataBitRaises(f: Frame, s: bool)
    ensures RaisesAtMost(f, DataBitReadyStep(f, s), SLAVE_BUFFER_OVERFLOW)
  {
  }

  lemma OutputBitRaises(f: Frame)
    ensures RaisesAtMost(f, OutputDataBitStep(f), SLAVE_STOP_FAILED)
  {
  }

  lemma AckRaises(f: Frame, s: bool)
    ensures RaisesAtMost(f, HandleAckStep(f, s), SLAVE_BUFFER_OVERFLOW)
  {
    if f.engine.mode != AckOut && f.engine.mode != AckIn && f.engine.readMessage {
      var g :=
        if HoldsForData(f) then f.(channels := f.channels.(sclInInterrupt := true, sclOut := Low))
        else f;
      assert HandleAckStep(f, s) == NextReadByte(g);
      NextReadByteRaises(g);
    }
  }

  lemma NextReadByteRaises(f: Frame)
    ensures RaisesAtMost(f, NextReadByte(f), SLAVE_BUFFER_OVERFLOW)
  {
  }

  lemma StopRaises(f: Frame, sclHigh: bool)
    ensures RaisesAtMost(f, FoundStopStep(f, sclHigh), SLAVE_STOP_FAILED)
  {
  }

  lemma RepeatedStartRaises(f: Frame, sclHigh: bool)
    ensures RaisesAtMost(f, FoundRepeatedStartStep(f, sclHigh), SLAVE_INVALID_START)
  {
  }

  lemma DataReadyRaises(f: Frame, now: bv24)
    ensures RaisesAtMost(f, ReadDataReadyStep(f, now), SLAVE_STOP_FAILED)
  {
    OutputBitRaises(ReloadReadBuffer(f, now));
  }

  lemma {:induction false} RunKeepsConfig(f: Frame, ts: seq<Thread>)
    ensures RunThreads(f, ts).config == f.config
    decreases |ts|
  {
    if |ts| > 0 {
      ThreadKeepsConfig(f, ts[0]);
      RunKeepsConfig(RunThread(f, ts[0]), ts[1..]);
    }
  }

  lemma {:induction false} RunKeepsFlags(f: Frame, ts: seq<Thread>)
    requires forall i | 0 <= i < |ts| :: ts[i] != LatchThread
    ensures KeepsFlags(f.results.errorFlags, RunThreads(f, ts).results.errorFlags)
    decreases |ts|
  {
    if |ts| > 0 {
      var g := RunThread(f, ts[0]);
      ThreadKeepsFlags(f, ts[0]);
      assert forall i | 0 <= i < |ts[1..]| :: ts[1..][i] != LatchThread by {
        forall i | 0 <= i < |ts[1..]| ensures ts[1..][i] != LatchThread {
          assert ts[1..][i] == ts[i + 1];
        }
      }
      RunKeepsFlags(g, ts[1..]);
      KeepsFlagsTrans(f.results.errorFlags, g.results.errorFlags, RunThreads(g, ts[1..]).results.errorFlags);
    }
  }

  /** Idle detection: the tBUF checks of both lines, `true` for a line found high, in the order they fire. */
  function IdleChecks(f: Frame, quiet: seq<bool>): Frame
    decreases |quiet|
  {
    if |quiet| == 0 then f
    else
      var g := IdleChecks(f, quiet[..|quiet| - 1]);
      if quiet[|quiet| - 1] then IdleDetectPassStep(g) else IdleDetectFailStep(g)
  }

  /** How many checks at the end of `quiet` found their line high. */
  function QuietRun(quiet: seq<bool>): nat
    decreases |quiet|
  {
    if |quiet| == 0 || !quiet[|quiet| - 1] then 0 else QuietRun(quiet[..|quiet| - 1]) + 1
  }

  /**
   * The bus is idle exactly when the last two checks since idle detection
   * (re)started found their lines high; then both lines watch for the
   * falling SDA edge of a START.
   */
  lemma {:induction false} IdleDetected(f: Frame, quiet: seq<bool>)
    requires f.engine.mode == FindIdle && f.engine.idleDetect == 0
    ensures var r := IdleChecks(f, quiet);
      r.engine.idleDetect == QuietRun(quiet)
      && r.engine.mode == (if QuietRun(quiet) >= 2 then Idle else FindIdle)
      && (QuietRun(quiet) >= 2 ==> r.channels.sclDetect == FallingEdge && r.channels.sdaDetect == FallingEdge)
      && r.results == f.results && r.ram == f.ram
    decreases |quiet|
  {
    if |quiet| > 0 {
      IdleDetected(f, quiet[..|quiet| - 1]);
    }
  }
}
