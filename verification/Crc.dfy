/**
 CRC-16/MODBUS as the protocol computes it, with a table, and the bit-by-bit
 reflected form that defines it. Registers are 32 bits wide, so that staying
 within 16 bits is a result and not a matter of the type.
 */
module Crc {
  type byte = bv8
  type Bytes = seq<byte>

  const INIT: bv32 := 0xFFFF

  // ---- Definition ----

  /** One step of the reflected register with polynomial 0xA001. */
  function BitStep(c: bv32): bv32 {
    if c & 1 != 0 then (c >> 1) ^ 0xA001 else c >> 1
  }

  function BitSteps(c: bv32, n: nat): bv32
    decreases n, c
  {
    if n == 0 then c else BitSteps(BitStep(c), n - 1)
  }

  /** One byte enters the register bit by bit. */
  function ByteStep(c: bv32, b: byte): bv32 {
    BitSteps(c ^ (b as bv32), 8)
  }

  function Feed(c: bv32, data: Bytes): bv32
    decreases |data|
  {
    if data == [] then c else Feed(ByteStep(c, data[0]), data[1..])
  }

  /** The CRC of a byte string, bit by bit. */
  function CrcOf(data: Bytes): bv32 {
    Feed(INIT, data)
  }

  predicate Is16Bit(c: bv32) {
    c & 0xFFFF_0000 == 0
  }

  // ---- The code's loops ----

  function Reflected(x: bv32, out: bv32, width: nat): bv32
    decreases width
  {
    if width == 0 then out else Reflected(x >> 1, (out << 1) | (x & 1), width - 1)
  }

  method ReflectBits(x0: bv32, width: nat) returns (out: bv32)
    ensures out == Reflected(x0, 0, width)
    ensures forall i :: 0 <= i < width && i < 32 ==> Bit(out, i) == Bit(x0, width - 1 - i)
  {
    var x := x0;
    out := 0;
    for i := 0 to width
      invariant Reflected(x0, 0, width) == Reflected(x, out, width - i)
    {
      out := (out << 1) | (x & 1);
      x := x >> 1;
    }
    forall i | 0 <= i < width && i < 32 ensures Bit(out, i) == Bit(x0, width - 1 - i) {
      ReflectedBits(x0, 0, width, i);
    }
  }

  /** Bit i of a word, counted from the lowest. */
  function Bit(x: bv32, i: nat): bv32
    decreases i, x
  {
    if i == 0 then x & 1 else Bit(x >> 1, i - 1)
  }

  ghost predicate LowOnes(m: bv32, k: nat)
    decreases k, m
  {
    m & 1 == 1 && (k == 0 || LowOnes(m >> 1, k - 1))
  }

  lemma {:induction false} FewerOnes(m: bv32, k: nat, j: nat)
    requires LowOnes(m, k) && j <= k
    ensures LowOnes(m, j)
    decreases k
  {
    if j > 0 { FewerOnes(m >> 1, k - 1, j - 1); }
  }

  lemma MaskStep(y: bv32, m: bv32)
    ensures (y & m) >> 1 == (y >> 1) & (m >> 1)
    ensures m & 1 == 1 ==> (y & m) & 1 == y & 1
  {
  }

  lemma {:induction false} MaskKeepsBit(y: bv32, m: bv32, k: nat)
    requires LowOnes(m, k)
    ensures Bit(y & m, k) == Bit(y, k)
    decreases k
  {
    MaskStep(y, m);
    if k > 0 { MaskKeepsBit(y >> 1, m >> 1, k - 1); }
  }

  lemma OneMore(m: bv32, half: bv32, k: nat)
    requires m & 1 == 1 && half == m >> 1 && LowOnes(half, k)
    ensures LowOnes(m, k + 1)
  {
  }

  lemma ThreeLow(m: bv32, m1: bv32, m2: bv32, rest: bv32)
    requires m & 7 == 7 && m1 == m >> 1 && m2 == m1 >> 1 && rest == m >> 3
    ensures m & 1 == 1 && m1 & 1 == 1 && m2 & 1 == 1 && m2 >> 1 == rest
  {
  }

  lemma ThreeMoreOnes(m: bv32, rest: bv32, k: nat)
    requires m & 7 == 7 && rest == m >> 3 && LowOnes(rest, k)
    ensures LowOnes(m, k + 3)
  {
    var m1 := m >> 1;
    var m2 := m1 >> 1;
    ThreeLow(m, m1, m2, rest);
    OneMore(m2, rest, k);
    OneMore(m1, m2, k + 1);
    OneMore(m, m1, k + 2);
  }

  lemma AllLowOnes()
    ensures LowOnes(0x7FFF_FFFF, 30)
  {
    assert LowOnes(1, 0);
    ThreeMoreOnes(0xF, 1, 0);
    ThreeMoreOnes(0x7F, 0xF, 3);
    ThreeMoreOnes(0x3FF, 0x7F, 6);
    ThreeMoreOnes(0x1FFF, 0x3FF, 9);
    ThreeMoreOnes(0xFFFF, 0x1FFF, 12);
    ThreeMoreOnes(0x7_FFFF, 0xFFFF, 15);
    ThreeMoreOnes(0x3F_FFFF, 0x7_FFFF, 18);
    ThreeMoreOnes(0x1FF_FFFF, 0x3F_FFFF, 21);
    ThreeMoreOnes(0xFFF_FFFF, 0x1FF_FFFF, 24);
    ThreeMoreOnes(0x7FFF_FFFF, 0xFFF_FFFF, 27);
  }

  lemma ShiftIn(x: bv32, out: bv32, next: bv32)
    requires next == (out << 1) | (x & 1)
    ensures next & 1 == x & 1 && next >> 1 == out & 0x7FFF_FFFF
  {
  }

  /** Shifting a bit in moves the others up by one; only the topmost is lost. */
  lemma ShiftedBits(x: bv32, out: bv32, next: bv32, k: nat)
    requires next == (out << 1) | (x & 1)
    ensures Bit(next, 0) == Bit(x, 0)
    ensures k <= 30 ==> Bit(next, k + 1) == Bit(out, k)
  {
    ShiftIn(x, out, next);
    if k <= 30 {
      AllLowOnes();
      FewerOnes(0x7FFF_FFFF, 30, k);
      MaskKeepsBit(out, 0x7FFF_FFFF, k);
    }
  }

  /** Bit i of the result is bit width - 1 - i of the argument; above come the bits reflected before. */
  lemma {:induction false} ReflectedBits(x: bv32, out: bv32, width: nat, i: nat)
    requires i < 32
    ensures Bit(Reflected(x, out, width), i) == if i < width then Bit(x, width - 1 - i) else Bit(out, i - width)
    decreases width
  {
    if width > 0 {
      var rest, next := x >> 1, (out << 1) | (x & 1);
      ReflectedBits(rest, next, width - 1, i);
      ShiftedBits(x, out, next, if i >= width then i - width else 0);
      if i < width - 1 { UpperBit(x, rest, width - 1 - i); }
    }
  }

  lemma UpperBit(x: bv32, rest: bv32, k: nat)
    requires k > 0 && rest == x >> 1
    ensures Bit(x, k) == Bit(rest, k - 1)
  {
  }

  /** Reflecting the polynomial over 16 bits gives the constant of the reflected register. */
  lemma ReflectedPoly()
    ensures Reflected(0x8005, 0, 16) == 0xA001
  {
    assert Reflected(0x8005, 0, 16) == Reflected(0x4002, 1, 15) == Reflected(0x2001, 2, 14);
    assert Reflected(0x2001, 2, 14) == Reflected(0x1000, 5, 13) == Reflected(0x800, 0xA, 12);
    assert Reflected(0x800, 0xA, 12) == Reflected(0x400, 0x14, 11) == Reflected(0x200, 0x28, 10);
    assert Reflected(0x200, 0x28, 10) == Reflected(0x100, 0x50, 9) == Reflected(0x80, 0xA0, 8);
    assert Reflected(0x80, 0xA0, 8) == Reflected(0x40, 0x140, 7) == Reflected(0x20, 0x280, 6);
    assert Reflected(0x20, 0x280, 6) == Reflected(0x10, 0x500, 5) == Reflected(0x8, 0xA00, 4);
    assert Reflected(0x8, 0xA00, 4) == Reflected(0x4, 0x1400, 3) == Reflected(0x2, 0x2800, 2);
    assert Reflected(0x2, 0x2800, 2) == Reflected(0x1, 0x5000, 1) == Reflected(0, 0xA001, 0);
  }

  /** The table entry of a byte value: eight steps of it. */
  ghost predicate EntryOf(entry: bv32, n: nat)
    requires n < 256
  {
    entry == BitSteps(n as bv32, 8) && Is16Bit(entry)
  }

  method TableEntry(n: bv32, polyR: bv32) returns (c: bv32)
    requires n < 256 && polyR == 0xA001
    ensures c == BitSteps(n, 8) && Is16Bit(c)
  {
    c := n;
    for i := 0 to 8
      invariant BitSteps(n, 8) == BitSteps(c, 8 - i)
      invariant Is16Bit(c)
    {
      BitStepKeeps16(c);
      c := if c & 1 != 0 then (c >> 1) ^ polyR else c >> 1;
    }
    c := c & 0xFFFF;
  }

  method Crc16Table() returns (table: seq<bv32>)
    ensures |table| == 256
    ensures forall n :: 0 <= n < 256 ==> EntryOf(table[n], n)
  {
    var polyR := ReflectBits(0x8005, 16);
    polyR := polyR & 0xFFFF;
    ReflectedPoly();
    table := [];
    for n := 0 to 256
      invariant |table| == n
      invariant forall k :: 0 <= k < n ==> EntryOf(table[k], k)
    {
      var c := TableEntry(n as bv32, polyR);
      assert EntryOf(c, n);
      table := table + [c];
    }
  }

  method TableStep(table: seq<bv32>, crc: bv32, b: byte) returns (next: bv32)
    requires |table| == 256 && forall n :: 0 <= n < 256 ==> EntryOf(table[n], n)
    requires Is16Bit(crc)
    ensures next == ByteStep(crc, b) && Is16Bit(next)
  {
    var index := (crc ^ (b as bv32)) & 0xFF;
    var entry := LookUp(table, index);
    next := ((crc >> 8) ^ entry) & 0xFFFF;
    UpdateIsByteStep(crc, b, index, entry, next);
  }

  method LookUp(table: seq<bv32>, index: bv32) returns (entry: bv32)
    requires |table| == 256 && forall n :: 0 <= n < 256 ==> EntryOf(table[n], n)
    requires index < 256
    ensures entry == BitSteps(index, 8)
  {
    entry := table[index as int];
    assert EntryOf(entry, index as int) && (index as int) as bv32 == index;
  }

  /** The table serves the bytes one by one; the result is the bit-by-bit CRC. */
  method Crc16Modbus(data: Bytes) returns (crc: bv32)
    ensures crc == CrcOf(data)
    ensures Is16Bit(crc)
  {
    var table := Crc16Table();
    crc := INIT;
    for i := 0 to |data|
      invariant Is16Bit(crc)
      invariant CrcOf(data) == Feed(crc, data[i..])
    {
      assert data[i..][1..] == data[i + 1..];
      crc := TableStep(table, crc, data[i]);
    }
  }

  // ---- The step is linear over exclusive or ----

  ghost predicate IsXor(x: bv32, y: bv32, z: bv32) {
    z == x ^ y
  }

  lemma BitStepLinear(x: bv32, y: bv32, z: bv32)
    requires IsXor(x, y, z)
    ensures IsXor(BitStep(x), BitStep(y), BitStep(z))
  {
    if x & 1 != 0 {
      if y & 1 != 0 { assert z & 1 == 0; } else { assert z & 1 != 0; }
    } else {
      if y & 1 != 0 { assert z & 1 != 0; } else { assert z & 1 == 0; }
    }
  }

  lemma {:induction false} BitStepsLinear(x: bv32, y: bv32, z: bv32, n: nat)
    requires IsXor(x, y, z)
    ensures IsXor(BitSteps(x, n), BitSteps(y, n), BitSteps(z, n))
    decreases n
  {
    if n > 0 {
      BitStepLinear(x, y, z);
      BitStepsLinear(BitStep(x), BitStep(y), BitStep(z), n - 1);
    }
  }

  /** The lowest n bits are clear. */
  ghost predicate LowClear(h: bv32, n: nat)
    decreases n
  {
    n == 0 || (h & 1 == 0 && LowClear(h >> 1, n - 1))
  }

  ghost function ShiftedDown(h: bv32, n: nat): bv32
    decreases n
  {
    if n == 0 then h else ShiftedDown(h >> 1, n - 1)
  }

  lemma {:induction false} ClearBitsShift(h: bv32, n: nat)
    requires LowClear(h, n)
    ensures BitSteps(h, n) == ShiftedDown(h, n)
    decreases n
  {
    if n > 0 { ClearBitsShift(h >> 1, n - 1); }
  }

  /** A register with a clear low byte is only shifted by eight steps. */
  lemma HighByteShifts(h: bv32)
    requires h & 0xFF == 0
    ensures BitSteps(h, 8) == h >> 8
  {
    assert LowClear(h, 8) by {
      assert LowClear(h >> 6, 2);
      assert LowClear(h >> 4, 4);
      assert LowClear(h >> 2, 6);
    }
    ClearBitsShift(h, 8);
    assert ShiftedDown(h, 8) == ShiftedDown(h >> 2, 6) == ShiftedDown(h >> 4, 4);
    assert ShiftedDown(h >> 4, 4) == ShiftedDown(h >> 6, 2) == h >> 8;
  }

  lemma BitStepKeeps16(c: bv32)
    requires Is16Bit(c)
    ensures Is16Bit(BitStep(c))
  {
  }

  lemma {:induction false} BitStepsKeep16(c: bv32, n: nat)
    requires Is16Bit(c)
    ensures Is16Bit(BitSteps(c, n))
    decreases n
  {
    if n > 0 {
      BitStepKeeps16(c);
      BitStepsKeep16(BitStep(c), n - 1);
    }
  }

  lemma ByteStepKeeps16(c: bv32, b: byte)
    requires Is16Bit(c)
    ensures Is16Bit(c ^ (b as bv32)) && Is16Bit(ByteStep(c, b))
  {
    BitStepsKeep16(c ^ (b as bv32), 8);
  }

  /** What the table update computes from the register and a table entry. */
  ghost predicate Updates(crc: bv32, entry: bv32, next: bv32) {
    next == ((crc >> 8) ^ entry) & 0xFFFF
  }

  lemma SplitWord(crc: bv32, b: byte, x: bv32, low: bv32, high: bv32)
    requires Is16Bit(crc) && x == crc ^ (b as bv32) && low == x & 0xFF && high == x & 0xFF00
    ensures IsXor(low, high, x) && high & 0xFF == 0 && high >> 8 == crc >> 8 && Is16Bit(low)
  {
  }

  lemma JoinWord(crc: bv32, entry: bv32, z: bv32)
    requires Is16Bit(crc) && Is16Bit(entry) && IsXor(entry, crc >> 8, z)
    ensures Updates(crc, entry, z)
  {
  }

  lemma UpdatesOnce(crc: bv32, entry: bv32, next: bv32, z: bv32)
    requires Updates(crc, entry, next) && Updates(crc, entry, z)
    ensures next == z
  {
  }

  lemma JoinedWord(crc: bv32, entry: bv32, z: bv32, next: bv32)
    requires Is16Bit(crc) && Is16Bit(entry) && IsXor(entry, crc >> 8, z) && Updates(crc, entry, next)
    ensures next == z
  {
    JoinWord(crc, entry, z);
    UpdatesOnce(crc, entry, next, z);
  }

  lemma LowByteSteps(crc: bv32, b: byte, x: bv32, low: bv32, entry: bv32, full: bv32)
    requires Is16Bit(crc) && x == crc ^ (b as bv32) && low == x & 0xFF
    requires entry == BitSteps(low, 8) && full == BitSteps(x, 8)
    ensures IsXor(entry, crc >> 8, full) && Is16Bit(entry)
  {
    SplitWord(crc, b, x, low, x & 0xFF00);
    HighByteShifts(x & 0xFF00);
    BitStepsLinear(low, x & 0xFF00, x, 8);
    BitStepsKeep16(low, 8);
  }

  lemma UpdateIsFull(crc: bv32, b: byte, x: bv32, index: bv32, entry: bv32, full: bv32, next: bv32)
    requires Is16Bit(crc) && x == crc ^ (b as bv32) && index == x & 0xFF
    requires entry == BitSteps(index, 8) && full == BitSteps(x, 8) && Updates(crc, entry, next)
    ensures next == full
  {
    LowByteSteps(crc, b, x, index, entry, full);
    JoinedWord(crc, entry, full, next);
  }

  /** One table step is eight bit steps. */
  lemma UpdateIsByteStep(crc: bv32, b: byte, index: bv32, entry: bv32, next: bv32)
    requires Is16Bit(crc) && index == (crc ^ (b as bv32)) & 0xFF && entry == BitSteps(index, 8)
    requires Updates(crc, entry, next)
    ensures next == ByteStep(crc, b) && Is16Bit(next)
  {
    var x := crc ^ (b as bv32);
    UpdateIsFull(crc, b, x, index, entry, BitSteps(x, 8), next);
    ByteStepKeeps16(crc, b);
  }

  // ---- Corruption of one byte or of two adjacent bytes is detected ----

  lemma BitStepInjective(x: bv32, y: bv32)
    requires Is16Bit(x) && Is16Bit(y) && BitStep(x) == BitStep(y)
    ensures x == y
  {
  }

  lemma {:induction false} BitStepsInjective(x: bv32, y: bv32, n: nat)
    requires Is16Bit(x) && Is16Bit(y) && BitSteps(x, n) == BitSteps(y, n)
    ensures x == y
    decreases n
  {
    if n > 0 {
      BitStepKeeps16(x);
      BitStepKeeps16(y);
      BitStepsInjective(BitStep(x), BitStep(y), n - 1);
      BitStepInjective(x, y);
    }
  }

  /** The same bytes keep different registers apart. */
  lemma {:induction false} FeedInjective(x: bv32, y: bv32, data: Bytes)
    requires Is16Bit(x) && Is16Bit(y) && Feed(x, data) == Feed(y, data)
    ensures x == y
    decreases |data|
  {
    if data != [] {
      ByteStepKeeps16(x, data[0]);
      ByteStepKeeps16(y, data[0]);
      FeedInjective(ByteStep(x, data[0]), ByteStep(y, data[0]), data[1..]);
      BitStepsInjective(x ^ (data[0] as bv32), y ^ (data[0] as bv32), 8);
    }
  }

  lemma {:induction false} FeedConcat(c: bv32, a: Bytes, b: Bytes)
    ensures Feed(c, a + b) == Feed(Feed(c, a), b)
    decreases |a|
  {
    if a == [] {
      assert a + b == b;
    } else {
      assert (a + b)[1..] == a[1..] + b;
      FeedConcat(ByteStep(c, a[0]), a[1..], b);
    }
  }

  lemma {:induction false} FeedKeeps16(c: bv32, data: Bytes)
    requires Is16Bit(c)
    ensures Is16Bit(Feed(c, data))
    decreases |data|
  {
    if data != [] {
      ByteStepKeeps16(c, data[0]);
      FeedKeeps16(ByteStep(c, data[0]), data[1..]);
    }
  }

  lemma PlaceHigh(x: bv32, b: byte, y: bv32, z: bv32)
    requires Is16Bit(x) && y == (b as bv32) << 8 && z == x ^ y
    ensures y & 0xFF == 0 && y >> 8 == b as bv32 && Is16Bit(z)
  {
  }

  lemma PlacedSteps(x: bv32, b: byte, y: bv32, z: bv32)
    requires Is16Bit(x) && y == (b as bv32) << 8 && z == x ^ y
    ensures IsXor(BitSteps(x, 8), b as bv32, BitSteps(z, 8)) && Is16Bit(z)
  {
    PlaceHigh(x, b, y, z);
    HighByteShifts(y);
    BitStepsLinear(x, y, z, 8);
  }

  lemma FirstByte(c: bv32, a: byte, b: byte, x: bv32, y: bv32, z: bv32)
    requires Is16Bit(c) && x == c ^ (a as bv32) && y == (b as bv32) << 8 && z == x ^ y
    ensures BitSteps(z, 8) == ByteStep(c, a) ^ (b as bv32) && Is16Bit(z)
  {
    ByteStepKeeps16(c, a);
    PlacedSteps(x, b, y, z);
  }

  /** Two bytes enter the register as one 16-bit word. */
  lemma TwoBytes(c: bv32, a: byte, b: byte, x: bv32, y: bv32, z: bv32)
    requires Is16Bit(c) && x == c ^ (a as bv32) && y == (b as bv32) << 8 && z == x ^ y
    ensures ByteStep(ByteStep(c, a), b) == BitSteps(BitSteps(z, 8), 8)
    ensures Is16Bit(z)
  {
    FirstByte(c, a, b, x, y, z);
    assert ByteStep(ByteStep(c, a), b) == BitSteps(ByteStep(c, a) ^ (b as bv32), 8);
  }

  lemma SameWord(c: bv32, a: byte, b: byte, a': byte, b': byte)
    requires Word(c, a, b) == Word(c, a', b')
    ensures a == a' && b == b'
  {
  }

  lemma SixteenStepsInjective(z: bv32, z': bv32)
    requires Is16Bit(z) && Is16Bit(z') && BitSteps(BitSteps(z, 8), 8) == BitSteps(BitSteps(z', 8), 8)
    ensures z == z'
  {
    BitStepsKeep16(z, 8);
    BitStepsKeep16(z', 8);
    BitStepsInjective(BitSteps(z, 8), BitSteps(z', 8), 8);
    BitStepsInjective(z, z', 8);
  }

  /** The register with the first byte in its low half and the second in its high half. */
  ghost function Word(c: bv32, a: byte, b: byte): bv32 {
    (c ^ (a as bv32)) ^ ((b as bv32) << 8)
  }

  lemma TwoBytesWord(c: bv32, a: byte, b: byte)
    requires Is16Bit(c)
    ensures ByteStep(ByteStep(c, a), b) == BitSteps(BitSteps(Word(c, a, b), 8), 8) && Is16Bit(Word(c, a, b))
  {
    TwoBytes(c, a, b, c ^ (a as bv32), (b as bv32) << 8, Word(c, a, b));
  }

  lemma TwoBytesInjective(c: bv32, a: byte, b: byte, a': byte, b': byte)
    requires Is16Bit(c)
    requires ByteStep(ByteStep(c, a), b) == ByteStep(ByteStep(c, a'), b')
    ensures a == a' && b == b'
  {
    TwoBytesWord(c, a, b);
    TwoBytesWord(c, a', b');
    SixteenStepsInjective(Word(c, a, b), Word(c, a', b'));
    SameWord(c, a, b, a', b');
  }

  /** Any change confined to two adjacent bytes of a message changes its CRC. */
  lemma AdjacentCorruptionDetected(before: Bytes, a: byte, b: byte, a': byte, b': byte, after: Bytes)
    requires (a, b) != (a', b')
    ensures CrcOf(before + [a, b] + after) != CrcOf(before + [a', b'] + after)
  {
    var c := Feed(INIT, before);
    FeedKeeps16(INIT, before);
    FeedConcat(INIT, before + [a, b], after);
    FeedConcat(INIT, before, [a, b]);
    FeedConcat(INIT, before + [a', b'], after);
    FeedConcat(INIT, before, [a', b']);
    PairFeed(c, a, b);
    PairFeed(c, a', b');
    var x, x' := Feed(c, [a, b]), Feed(c, [a', b']);
    FeedKeeps16(c, [a, b]);
    FeedKeeps16(c, [a', b']);
    if Feed(x, after) == Feed(x', after) {
      FeedInjective(x, x', after);
      TwoBytesInjective(c, a, b, a', b');
    }
  }

  lemma PairFeed(c: bv32, a: byte, b: byte)
    ensures Feed(c, [a, b]) == ByteStep(ByteStep(c, a), b)
  {
    var pair := [a, b];
    assert pair[1..] == [b] && [b][1..] == [];
    assert Feed(c, pair) == Feed(ByteStep(c, a), [b]);
    assert Feed(ByteStep(c, a), [b]) == Feed(ByteStep(ByteStep(c, a), b), []);
  }

  lemma ByteStepInjective(c: bv32, a: byte, a': byte)
    requires Is16Bit(c) && ByteStep(c, a) == ByteStep(c, a')
    ensures a == a'
  {
    ByteStepKeeps16(c, a);
    ByteStepKeeps16(c, a');
    BitStepsInjective(c ^ (a as bv32), c ^ (a' as bv32), 8);
  }

  /** Any change of a single byte of a message changes its CRC. */
  lemma ByteCorruptionDetected(before: Bytes, a: byte, a': byte, after: Bytes)
    requires a != a'
    ensures CrcOf(before + [a] + after) != CrcOf(before + [a'] + after)
  {
    if after == [] {
      if before == [] {
        AdjacentToLast([], a, a');
      } else {
        AdjacentToLast(before, a, a');
      }
      assert before + [a] + after == before + [a] && before + [a'] + after == before + [a'];
    } else {
      AdjacentCorruptionDetected(before, a, after[0], a', after[0], after[1..]);
      assert before + [a, after[0]] + after[1..] == before + [a] + after;
      assert before + [a', after[0]] + after[1..] == before + [a'] + after;
    }
  }

  lemma AdjacentToLast(before: Bytes, a: byte, a': byte)
    requires a != a'
    ensures CrcOf(before + [a]) != CrcOf(before + [a'])
  {
    var c := Feed(INIT, before);
    FeedKeeps16(INIT, before);
    FeedConcat(INIT, before, [a]);
    FeedConcat(INIT, before, [a']);
    SingleFeed(c, a);
    SingleFeed(c, a');
    if ByteStep(c, a) == ByteStep(c, a') { ByteStepInjective(c, a, a'); }
  }

  lemma SingleFeed(c: bv32, a: byte)
    ensures Feed(c, [a]) == ByteStep(c, a)
  {
    assert Feed(ByteStep(c, a), [a][1..]) == ByteStep(c, a);
  }
}
