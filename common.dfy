/**
 * Definitions shared by the eTPU I2C master and slave engines: the error-flag
 * bits, the R/W bit of a header byte, the 24-bit working register that shifts
 * bits on and off SDA, accesses to the eTPU data RAM through a pointer, and
 * the pin actions a channel schedules.
 */
module I2CCommon {

  // R/W bit of a header byte (section 3.1.10 of UM10204): 1 = read, 0 = write
  const RW_MASK: bv8 := 0x01

  // master error flags
  const MASTER_ACK_FAILED: bv8 := 0x01
  const MASTER_BUSY: bv8 := 0x02

  // slave error flags
  const SLAVE_INVALID_START: bv8 := 0x10
  const SLAVE_BUFFER_OVERFLOW: bv8 := 0x20
  const SLAVE_STOP_FAILED: bv8 := 0x40

  // each engine occupies four consecutive eTPU channels
  const CHANNELS_USED: nat := 4

  /** The START byte, 0000 0001 (section 3.1.15 of UM10204). */
  const START_BYTE: bv8 := 0x01

  datatype Line = SCL | SDA
  datatype Level = Low | High

  /**
   * A match the engine arms on an output channel: at `time` the pin is driven
   * to `level`, or (`Mark`) the match only fires an event and leaves the pin.
   */
  datatype PinAction =
    | Drive(line: Line, time: bv24, level: Level)
    | Mark(line: Line, time: bv24)

  function LevelOf(bit: bool): Level
  {
    if bit then High else Low
  }

  /** The eight bits of `b` in the order they travel on SDA: most significant first. */
  function BitsMsbFirst(b: bv8): seq<bool>
  {
    [b & 0x80 != 0, b & 0x40 != 0, b & 0x20 != 0, b & 0x10 != 0,
     b & 0x08 != 0, b & 0x04 != 0, b & 0x02 != 0, b & 0x01 != 0]
  }

  /** Bit 7 of a byte: the first of its bits on SDA. */
  function MsbOf(b: bv8): bool
  {
    b & 0x80 != 0
  }

  /**
   * The first `n` bits of `b` as they leave a shift register, most
   * significant first: bit 7, then the bits of `b << 1`.
   */
  function MsbBits(b: bv8, n: nat): seq<bool>
    decreases n
  {
    if n == 0 then [] else [MsbOf(b)] + MsbBits(b << 1, n - 1)
  }

  /** Bit 23 of the 24-bit working register: the carry a one-place left shift pushes out. */
  function TopBit(w: bv24): bool
  {
    w & 0x80_0000 != 0
  }

  /** The low byte of the working register, as a cast to `unsigned int8` takes it. */
  function Low8(w: bv24): bv8
  {
    (w & 0xFF) as bv8
  }

  /** `w <<= 1`: a one-place left shift of the 24-bit working register. */
  function Shl1(w: bv24): bv24
  {
    w << 1
  }

  /** An error flag ORed into a flag byte. */
  function WithFlag(flags: bv8, flag: bv8): bv8
  {
    flags | flag
  }

  /** Setting an error flag that is already set changes nothing: the flags are sticky. */
  /** Error flags `after` still has every flag `before` had. */
  predicate KeepsFlags(before: bv8, after: bv8)
  {
    before & after == before
  }

  lemma WithFlagKeeps(flags: bv8, flag: bv8)
    ensures KeepsFlags(flags, WithFlag(flags, flag))
  {
  }

  /** Keeping flags is transitive. */
  lemma KeepsFlagsTrans(a: bv8, b: bv8, c: bv8)
    requires KeepsFlags(a, b) && KeepsFlags(b, c)
    ensures KeepsFlags(a, c)
  {
  }

  lemma WithFlagTwice(flags: bv8, flag: bv8)
    ensures WithFlag(WithFlag(flags, flag), flag) == WithFlag(flags, flag)
  {
  }

  /** The TCR1 time `d` ticks after `t`, wrapping at 24 bits like the eTPU time base. */
  function After(t: bv24, d: bv24): bv24
  {
    t + d
  }

  /** Whether a header byte in the working register asks for a read. */
  function IsRead(w: bv24): bool
  {
    w & (RW_MASK as bv24) != 0
  }

  /** `w <<= 1; if (pin high) w |= 1;` — one SDA sample shifted into the least significant bit. */
  function ShiftIn(w: bv24, bit: bool): bv24
  {
    (w << 1) | (if bit then 1 else 0)
  }

  /** The working register after the samples `bits` were shifted in, first sample first. */
  function ShiftInAll(w: bv24, bits: seq<bool>): bv24
    decreases |bits|
  {
    if |bits| == 0 then w else ShiftInAll(ShiftIn(w, bits[0]), bits[1..])
  }

  /** The levels driven by `n` successive `w <<= 1` steps that each drive the carry. */
  function ShiftOutAll(w: bv24, n: nat): seq<bool>
    decreases n
  {
    if n == 0 then [] else [TopBit(w)] + ShiftOutAll(Shl1(w), n - 1)
  }

  /** Shifting in two runs of bits is shifting in their concatenation. */
  lemma {:induction false} ShiftInAllAppend(w: bv24, a: seq<bool>, b: seq<bool>)
    ensures ShiftInAll(w, a + b) == ShiftInAll(ShiftInAll(w, a), b)
    decreases |a|
  {
    if |a| > 0 {
      assert (a + b)[0] == a[0];
      assert (a + b)[1..] == a[1..] + b;
      ShiftInAllAppend(ShiftIn(w, a[0]), a[1..], b);
    } else {
      assert a + b == b;
    }
  }

  lemma ShiftInOne(w: bv24, b: bool)
    ensures ShiftInAll(w, [b]) == ShiftIn(w, b)
  {
    assert [b][1..] == [];
  }

  /** A byte read through a pointer into the eTPU data RAM; outside the RAM it reads 0. */
  function Load(ram: seq<bv8>, p: nat): bv8
  {
    if p < |ram| then ram[p] else 0
  }

  /** The data RAM after a byte is stored through a pointer; a store outside the RAM is dropped. */
  function Store(ram: seq<bv8>, p: nat, b: bv8): (r: seq<bv8>)
    ensures |r| == |ram|
    ensures Load(r, p) == (if p < |ram| then b else 0)
    ensures forall q :: 0 <= q < |ram| && q != p ==> r[q] == ram[q]
  {
    if p < |ram| then ram[p := b] else ram
  }

  /** The data RAM after the bytes `bs` are stored one by one from address `p` upwards. */
  function StoreAll(ram: seq<bv8>, p: nat, bs: seq<bv8>): seq<bv8>
    decreases |bs|
  {
    if |bs| == 0 then ram else StoreAll(Store(ram, p, bs[0]), p + 1, bs[1..])
  }

  /**
   * Storing a run of bytes that fits in the RAM leaves each byte at its
   * address, the length of the RAM as it was, and every address outside the
   * run untouched.
   */
  lemma {:induction false} StoreAllLoads(ram: seq<bv8>, p: nat, bs: seq<bv8>)
    requires p + |bs| <= |ram|
    ensures |StoreAll(ram, p, bs)| == |ram|
    ensures forall i :: 0 <= i < |bs| ==> Load(StoreAll(ram, p, bs), p + i) == bs[i]
    ensures forall q :: 0 <= q < |ram| && !(p <= q < p + |bs|) ==> StoreAll(ram, p, bs)[q] == ram[q]
    decreases |bs|
  {
    if |bs| > 0 {
      var ram1 := Store(ram, p, bs[0]);
      StoreAllLoads(ram1, p + 1, bs[1..]);
      var r := StoreAll(ram, p, bs);
      assert r == StoreAll(ram1, p + 1, bs[1..]);
      forall i | 0 <= i < |bs|
        ensures Load(r, p + i) == bs[i]
      {
        if i > 0 {
          assert Load(r, (p + 1) + (i - 1)) == bs[1..][i - 1];
        } else {
          assert r[p] == ram1[p];
        }
      }
    }
  }

  /** Storing a run and then one more byte right after it is storing the longer run. */
  lemma {:induction false} StoreAllSnoc(ram: seq<bv8>, p: nat, bs: seq<bv8>, b: bv8)
    ensures StoreAll(ram, p, bs + [b]) == Store(StoreAll(ram, p, bs), p + |bs|, b)
    decreases |bs|
  {
    if |bs| == 0 {
      assert bs + [b] == [b];
      assert [b][1..] == [];
    } else {
      assert (bs + [b])[0] == bs[0];
      assert (bs + [b])[1..] == bs[1..] + [b];
      StoreAllSnoc(Store(ram, p, bs[0]), p + 1, bs[1..], b);
    }
  }

  /**
   * Shifting the eight bits of `b` into any working register, most significant
   * first, leaves `b` in its low byte: what a receiver stores after a byte.
   */
  lemma {:induction false} ShiftInByte(w: bv24, b: bv8)
    ensures Low8(ShiftInAll(w, BitsMsbFirst(b))) == b
  {
    var bits := BitsMsbFirst(b);
    var v1 := ShiftIn(w, bits[0]);
    var v2 := ShiftIn(v1, bits[1]);
    var v3 := ShiftIn(v2, bits[2]);
    var v4 := ShiftIn(v3, bits[3]);
    var v5 := ShiftIn(v4, bits[4]);
    var v6 := ShiftIn(v5, bits[5]);
    var v7 := ShiftIn(v6, bits[6]);
    var v8 := ShiftIn(v7, bits[7]);
    ShiftInPeel(w, bits, 0);
    ShiftInPeel(v1, bits, 1);
    ShiftInPeel(v2, bits, 2);
    ShiftInPeel(v3, bits, 3);
    ShiftInPeel(v4, bits, 4);
    ShiftInPeel(v5, bits, 5);
    ShiftInPeel(v6, bits, 6);
    ShiftInPeel(v7, bits, 7);
    assert bits[8..] == [];
    assert ShiftInAll(w, bits) == v8;
  }

  /** One step of `ShiftInAll` over the suffix of `bits` that starts at `i`. */
  lemma ShiftInPeel(v: bv24, bits: seq<bool>, i: nat)
    requires i < |bits|
    ensures ShiftInAll(v, bits[i..]) == ShiftInAll(ShiftIn(v, bits[i]), bits[i + 1..])
  {
    assert bits[i..][0] == bits[i];
    assert bits[i..][1..] == bits[i + 1..];
  }

  /** The working register after `k` one-place left shifts. */
  function ShiftedBy(w: bv24, k: nat): bv24
    decreases k
  {
    if k == 0 then w else ShiftedBy(Shl1(w), k - 1)
  }

  /** One more shift: `ShiftedBy(w, k + 1)` is `Shl1(ShiftedBy(w, k))`. */
  lemma {:induction false} ShiftedBySucc(w: bv24, k: nat)
    ensures ShiftedBy(w, k + 1) == Shl1(ShiftedBy(w, k))
    decreases k
  {
    if k > 0 {
      ShiftedBySucc(Shl1(w), k - 1);
    }
  }

  /** The `i`-th level `ShiftOutAll` drives is bit 23 of the register after `i` shifts. */
  lemma {:induction false} ShiftOutAllAt(w: bv24, n: nat, i: nat)
    requires i < n
    ensures |ShiftOutAll(w, n)| == n
    ensures ShiftOutAll(w, n)[i] == TopBit(ShiftedBy(w, i))
    decreases n
  {
    if i == 0 {
      ShiftOutAllLength(w, n);
    } else {
      ShiftOutAllAt(Shl1(w), n - 1, i - 1);
    }
  }

  lemma {:induction false} ShiftOutAllLength(w: bv24, n: nat)
    ensures |ShiftOutAll(w, n)| == n
    decreases n
  {
    if n > 0 {
      ShiftOutAllLength(Shl1(w), n - 1);
    }
  }

  /** Shifting by one and then by `k - 1` places is shifting by `k`. */
  lemma ShlCompose8(b: bv8, k: nat)
    requires 1 <= k <= 8
    ensures (b << 1) << (k - 1) == b << k
  {
  }

  lemma {:induction false} MsbBitsLength(b: bv8, n: nat)
    ensures |MsbBits(b, n)| == n
    decreases n
  {
    if n > 0 {
      MsbBitsLength(b << 1, n - 1);
    }
  }

  /** Bit `i` of `MsbBits(b, n)` is bit 7 of `b` shifted `i` places. */
  lemma {:induction false} MsbBitsAt(b: bv8, n: nat, i: nat)
    requires i < n <= 8
    ensures |MsbBits(b, n)| == n && MsbBits(b, n)[i] == MsbOf(b << i)
    decreases n
  {
    if i == 0 {
      MsbBitsLength(b, n);
    } else {
      MsbBitsAt(b << 1, n - 1, i - 1);
      ShlCompose8(b, i);
    }
  }

  lemma MsbOfShifted(b: bv8, i: nat)
    requires i < 8
    ensures MsbOf(b << i) == BitsMsbFirst(b)[i]
  {
  }

  /** All eight bits a shift register sends of `b` are `b` most significant first. */
  lemma MsbBitsByte(b: bv8)
    ensures MsbBits(b, 8) == BitsMsbFirst(b)
  {
    forall i | 0 <= i < 8
      ensures MsbBits(b, 8)[i] == BitsMsbFirst(b)[i]
    {
      MsbBitsAt(b, 8, i);
      MsbOfShifted(b, i);
    }
    MsbBitsLength(b, 8);
  }

  /** A byte in bits 23..16 of a working register, as both engines load a byte to send. */
  function HeaderWord(h: bv8): bv24
  {
    (h as bv24) << 16
  }

  /** One shift of a loaded header is the header shifted; its carry is the header's bit 7. */
  lemma HeaderWordShift(h: bv8)
    ensures Shl1(HeaderWord(h)) == HeaderWord(h << 1)
    ensures TopBit(HeaderWord(h)) == MsbOf(h)
  {
  }

  /** `n` write steps from a loaded header drive its first `n` bits. */
  lemma {:induction false} HeaderWordOut(h: bv8, n: nat)
    ensures ShiftOutAll(HeaderWord(h), n) == MsbBits(h, n)
    decreases n
  {
    if n > 0 {
      HeaderWordShift(h);
      HeaderWordOut(h << 1, n - 1);
    }
  }

  /**
   * The eight levels that eight write steps drive from a byte loaded into
   * bits 23..16 are the byte's bits, most significant first (section 3.1.5 of
   * UM10204).
   */
  lemma HeaderBitsOut(h: bv8)
    ensures ShiftOutAll(HeaderWord(h), 8) == BitsMsbFirst(h)
  {
    HeaderWordOut(h, 8);
    MsbBitsByte(h);
  }

  /** Eight shifts into a working register, written out. */
  lemma ShiftInAll8(w: bv24, bits: seq<bool>)
    requires |bits| == 8
    ensures ShiftInAll(w, bits) == ShiftIn(ShiftIn(ShiftIn(ShiftIn(ShiftIn(ShiftIn(ShiftIn(ShiftIn(w,
      bits[0]), bits[1]), bits[2]), bits[3]), bits[4]), bits[5]), bits[6]), bits[7])
  {
    var v1 := ShiftIn(w, bits[0]);
    var v2 := ShiftIn(v1, bits[1]);
    var v3 := ShiftIn(v2, bits[2]);
    var v4 := ShiftIn(v3, bits[3]);
    var v5 := ShiftIn(v4, bits[4]);
    var v6 := ShiftIn(v5, bits[5]);
    var v7 := ShiftIn(v6, bits[6]);
    ShiftInPeel(w, bits, 0);
    ShiftInPeel(v1, bits, 1);
    ShiftInPeel(v2, bits, 2);
    ShiftInPeel(v3, bits, 3);
    ShiftInPeel(v4, bits, 4);
    ShiftInPeel(v5, bits, 5);
    ShiftInPeel(v6, bits, 6);
    ShiftInPeel(v7, bits, 7);
    assert bits[8..] == [];
  }

  lemma ShiftInEight(b: bv8)
    ensures ShiftIn(ShiftIn(ShiftIn(ShiftIn(ShiftIn(ShiftIn(ShiftIn(ShiftIn(0,
      b & 0x80 != 0), b & 0x40 != 0), b & 0x20 != 0), b & 0x10 != 0), b & 0x08 != 0), b & 0x04 != 0),
      b & 0x02 != 0), b & 0x01 != 0) == b as bv24
  {
  }

  /**
   * The eight bits of `b` shifted into a cleared working register leave
   * exactly `b`, with nothing above bit 7: what a receiver compares after a
   * header.
   */
  lemma ShiftInByteExact(b: bv8)
    ensures ShiftInAll(0, BitsMsbFirst(b)) == b as bv24
  {
    ShiftInAll8(0, BitsMsbFirst(b));
    ShiftInEight(b);
  }

  /** Two bit strings of length eight that agree at every index are equal. */
  lemma SameBits8(s: seq<bool>, t: seq<bool>)
    requires |s| == 8 && |t| == 8
    requires s[0] == t[0] && s[1] == t[1] && s[2] == t[2] && s[3] == t[3]
    requires s[4] == t[4] && s[5] == t[5] && s[6] == t[6] && s[7] == t[7]
    ensures s == t
  {
  }

  /** Two bit strings of length nine that agree at every index are equal. */
  lemma SameBits9(s: seq<bool>, t: seq<bool>)
    requires |s| == 9 && |t| == 9
    requires s[0] == t[0] && s[1] == t[1] && s[2] == t[2] && s[3] == t[3]
    requires s[4] == t[4] && s[5] == t[5] && s[6] == t[6] && s[7] == t[7] && s[8] == t[8]
    ensures s == t
  {
  }
}
