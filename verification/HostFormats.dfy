/** The formats in which the host hands over data: pointers, words and lanes packed into the double words of a
    cache line come back through the typed reads of the processors. */
module HostFormats {
  import opened Words
  import opened DramPortals
  import opened FlatMemory
  import BootImage

  // ---- a line in memory ----

  /** An entry that nobody has claimed for another type than that of `like`. */
  predicate FreeFor(m: Mem, a: u32, claimed: Entry -> bool) {
    a !in m || m[a].Untyped? || claimed(m[a])
  }

  /** Every entry of the line gets its own two double words. */
  lemma {:induction false} EntryStored(m: Mem, first: u32, payload: Payload, n: nat, i: nat)
    requires i < n <= 4 && first + 4 <= 0x1_0000_0000
    ensures var m' := MirrorEntries(m, first, payload, n);
            var bytes := LineBytes(payload, i);
            && first + i in m'
            && m'[first + i] == if first + i in m then MirrorEntry(m[first + i], bytes) else Untyped(bytes)
  {
    hide LineBytes; hide MirrorEntry;
    if i < n - 1 {
      EntryStored(m, first, payload, n - 1, i);
    } else {
      NotYetStored(m, first, payload, n - 1, first + i);
    }
  }

  lemma {:induction false} NotYetStored(m: Mem, first: u32, payload: Payload, n: nat, a: u32)
    requires n <= 4 && first + 4 <= 0x1_0000_0000 && !(first <= a < first + n)
    ensures var m' := MirrorEntries(m, first, payload, n);
            (a in m' <==> a in m) && (a in m ==> m'[a] == m[a])
  {
    hide LineBytes; hide MirrorEntry;
    if n > 0 {
      NotYetStored(m, first, payload, n - 1, a);
    }
  }

  // ---- the formats ----

  /** A pointer header: four bits of tag above 28 bits of offset. */
  function Header(tag: nat, offset: nat): nat {
    0x1000_0000 * tag + offset
  }

  /** The unsigned value of a lane. */
  function U16(x: i16): u16 {
    if x < 0 then x + 0x1_0000 else x
  }

  function U32(x: i32): u32 {
    if x < 0 then x + 0x1_0000_0000 else x
  }

  function FourLanes(a: i16, b: i16, c: i16, d: i16): nat {
    U16(a) + 0x1_0000 * U16(b) + 0x1_0000_0000 * U16(c) + 0x1_0000_0000_0000 * U16(d)
  }

  lemma HeaderSplits(tag: nat, offset: nat)
    requires tag < 16 && offset < 0x1000_0000
    ensures Header(tag, offset) / 0x1000_0000 == tag && Header(tag, offset) % 0x1000_0000 == offset
    ensures Header(tag, offset) < 0x1_0000_0000
  {
  }

  lemma Signs(x: i16, y: i32)
    ensures Signed16(U16(x)) == x && Signed32(U32(y)) == y
  {
  }

  lemma HalvesOf(low: u32, high: u32)
    ensures var x := low + 0x1_0000_0000 * high;
            x % 0x1_0000_0000 == low && x / 0x1_0000_0000 % 0x1_0000_0000 == high
  {
  }

  /** The lanes of two little-endian double words. */
  lemma LanesSplit(a: i16, b: i16, c: i16, d: i16)
    ensures var bytes := LeBytes(FourLanes(a, b, c, d), 8);
            && Le16(bytes[0], bytes[1]) == U16(a) && Le16(bytes[2], bytes[3]) == U16(b)
            && Le16(bytes[4], bytes[5]) == U16(c) && Le16(bytes[6], bytes[7]) == U16(d)
  {
    hide LeBytes; hide U16; hide Le32; hide Le16;
    var x := FourLanes(a, b, c, d);
    BootImage.LowWord(x);
    var low: u32, high: u32 := U16(a) + 0x1_0000 * U16(b), U16(c) + 0x1_0000 * U16(d);
    assert x == low + 0x1_0000_0000 * high;
    HalvesOf(low, high);
    var s := LeBytes(x, 8);
    Pairs(s[0], s[1], s[2], s[3], U16(a), U16(b));
    Pairs(s[4], s[5], s[6], s[7], U16(c), U16(d));
  }

  lemma Pairs(b0: u8, b1: u8, b2: u8, b3: u8, low: u16, high: u16)
    requires Le32(b0, b1, b2, b3) == low + 0x1_0000 * high
    ensures Le16(b0, b1) == low && Le16(b2, b3) == high
  {
    assert Le32(b0, b1, b2, b3) == Le16(b0, b1) + 0x1_0000 * Le16(b2, b3);
  }

  // ---- what the processors read ----

  /** A pointer header that the host stores is read by the CPU as exactly that pointer, unless the entry was
      claimed for another type. */
  lemma PointerArrives(m: Mem, first: u32, payload: Payload, i: nat, tag: nat, offset: nat)
    requires i < 4 && first + 4 <= 0x1_0000_0000 && tag < 16 && offset < 0x1000_0000
    requires payload[2 * i] % 0x1_0000_0000 == Header(tag, offset)
    ensures ReadFptr(MirrorLine(m, first, payload), first + i).0 ==
            if FreeFor(m, first + i, (e: Entry) => e.CpuFatPtr?) then Some(FatPtr(tag, offset)) else None
  {
    hide LeBytes; hide MirrorEntries; hide Le32;
    EntryStored(m, first, payload, 4, i);
    BootImage.LowWord(payload[2 * i]);
    HeaderSplits(tag, offset);
    hide Header;
    assert DecodeCpuFatPtr(LineBytes(payload, i)) == FatPtr(tag, offset);
  }

  /** Four words. */
  lemma WordsArrive(m: Mem, first: u32, payload: Payload, i: nat, w: Vec4)
    requires i < 4 && first + 4 <= 0x1_0000_0000
    requires payload[2 * i] == w.x0 + 0x1_0000_0000 * w.x1 && payload[2 * i + 1] == w.x2 + 0x1_0000_0000 * w.x3
    ensures ReadData(MirrorLine(m, first, payload), first + i).0 ==
            if FreeFor(m, first + i, (e: Entry) => e.CpuData?) then Some(w) else None
  {
    hide LineBytes; hide MirrorEntries; hide DecodeCpuData;
    EntryStored(m, first, payload, 4, i);
    WordsDecode(payload, i, w);
  }

  lemma WordsDecode(payload: Payload, i: nat, w: Vec4)
    requires i < 4
    requires payload[2 * i] == w.x0 + 0x1_0000_0000 * w.x1 && payload[2 * i + 1] == w.x2 + 0x1_0000_0000 * w.x3
    ensures DecodeCpuData(LineBytes(payload, i)) == w
  {
    hide LeBytes; hide Le32;
    BootImage.LowWord(payload[2 * i]);
    BootImage.LowWord(payload[2 * i + 1]);
    HalvesOf(w.x0, w.x1);
    HalvesOf(w.x2, w.x3);
  }

  /** Eight signed lanes of 16 bits. */
  lemma LanesArrive(m: Mem, first: u32, payload: Payload, i: nat, v: Vec8)
    requires i < 4 && first + 4 <= 0x1_0000_0000
    requires payload[2 * i] == FourLanes(v[0], v[1], v[2], v[3])
    requires payload[2 * i + 1] == FourLanes(v[4], v[5], v[6], v[7])
    ensures DecodePeVector(LineBytes(payload, i)) == v
    ensures ReadV(MirrorLine(m, first, payload), first + i).0 ==
            if FreeFor(m, first + i, (e: Entry) => e.PeVector?) then Some(v) else None
  {
    hide LeBytes; hide MirrorEntries; hide Le16; hide FourLanes; hide U16; hide Signed16;
    EntryStored(m, first, payload, 4, i);
    LanesSplit(v[0], v[1], v[2], v[3]);
    LanesSplit(v[4], v[5], v[6], v[7]);
    var b := LineBytes(payload, i);
    forall k | 0 <= k < 8 ensures Signed16(Le16(b[2 * k], b[2 * k + 1])) == v[k] {
      Signs(v[k], 0);
    }
    assert DecodePeVector(b) == v;
  }

  /** One signed word of 32 bits. */
  lemma ScalarArrives(m: Mem, first: u32, payload: Payload, i: nat, x: i32)
    requires i < 4 && first + 4 <= 0x1_0000_0000 && payload[2 * i] % 0x1_0000_0000 == U32(x)
    ensures ReadS(MirrorLine(m, first, payload), first + i).0 ==
            if FreeFor(m, first + i, (e: Entry) => e.PeScalar?) then Some(x) else None
  {
    hide LeBytes; hide MirrorEntries; hide Le32; hide U32; hide Signed32;
    EntryStored(m, first, payload, 4, i);
    BootImage.LowWord(payload[2 * i]);
    Signs(0, x);
    assert DecodePeScalar(LineBytes(payload, i)) == x;
  }
}
