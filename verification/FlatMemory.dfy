/** Lazily typed local memory of one pseudo bank: 16-byte entries, typed by their first access. */
module FlatMemory {
  import opened Words
  import opened DramPortals

  const ENTRIES_PER_CACHELINE := 4

  type Bytes16 = s: seq<u8> | |s| == 16 witness [0, 0, 0, 0, 0, 0, 0, 0, 0, 0, 0, 0, 0, 0, 0, 0]
  type Vec8 = s: seq<i16> | |s| == 8 witness [0, 0, 0, 0, 0, 0, 0, 0]

  datatype Entry =
    | Untyped(bytes: Bytes16)
    | CpuData(data: Vec4)
    | CpuFatPtr(ptr: FatPtr)
    | PeVector(vec: Vec8)
    | PeScalar(scalar: i32)

  type Mem = map<u32, Entry>

  function Le16(b0: u8, b1: u8): u16 {
    b0 + 0x100 * b1
  }

  function Le32(b0: u8, b1: u8, b2: u8, b3: u8): u32 {
    b0 + 0x100 * b1 + 0x1_0000 * b2 + 0x100_0000 * b3
  }

  function DecodeCpuData(b: Bytes16): Vec4 {
    Vec4(Le32(b[0], b[1], b[2], b[3]), Le32(b[4], b[5], b[6], b[7]),
         Le32(b[8], b[9], b[10], b[11]), Le32(b[12], b[13], b[14], b[15]))
  }

  function DecodeCpuFatPtr(b: Bytes16): FatPtr {
    var encoded := Le32(b[0], b[1], b[2], b[3]);
    FatPtr(encoded / 0x1000_0000, encoded % 0x1000_0000)
  }

  function DecodePeVector(b: Bytes16): Vec8 {
    seq(8, i requires 0 <= i < 8 => Signed16(Le16(b[2 * i], b[2 * i + 1])))
  }

  function DecodePeScalar(b: Bytes16): i32 {
    Signed32(Le32(b[0], b[1], b[2], b[3]))
  }

  /** A host store replaces the bytes of an entry but keeps the type it was claimed for. */
  function MirrorEntry(e: Entry, bytes: Bytes16): Entry {
    match e
    case Untyped(_) => Untyped(bytes)
    case CpuData(_) => CpuData(DecodeCpuData(bytes))
    case CpuFatPtr(_) => CpuFatPtr(DecodeCpuFatPtr(bytes))
    case PeVector(_) => PeVector(DecodePeVector(bytes))
    case PeScalar(_) => PeScalar(DecodePeScalar(bytes))
  }

  // ---- the CPU's view ----

  /** A typed read: the value, and the memory with the entry claimed for the type. */
  function ReadData(m: Mem, a: u32): (Option<Vec4>, Mem) {
    if a !in m then (Some(ZERO4), m)
    else match m[a]
      case Untyped(b) => (Some(DecodeCpuData(b)), m[a := CpuData(DecodeCpuData(b))])
      case CpuData(d) => (Some(d), m)
      case _ => (None, m)
  }

  /** A typed write; a type mismatch is reported and leaves the memory alone. */
  function WriteData(m: Mem, a: u32, d: Vec4): (bool, Mem) {
    if a !in m || m[a].Untyped? || m[a].CpuData? then (true, m[a := CpuData(d)]) else (false, m)
  }

  function ReadFptr(m: Mem, a: u32): (Option<FatPtr>, Mem) {
    if a !in m then (None, m)
    else match m[a]
      case Untyped(b) => (Some(DecodeCpuFatPtr(b)), m[a := CpuFatPtr(DecodeCpuFatPtr(b))])
      case CpuFatPtr(p) => (Some(p), m)
      case _ => (None, m)
  }

  function WriteFptr(m: Mem, a: u32, p: FatPtr): (bool, Mem) {
    if a !in m || m[a].Untyped? || m[a].CpuFatPtr? then (true, m[a := CpuFatPtr(p)]) else (false, m)
  }

  // ---- the PE's view ----

  function ReadV(m: Mem, a: u32): (Option<Vec8>, Mem) {
    if a !in m then (Some([0, 0, 0, 0, 0, 0, 0, 0]), m)
    else match m[a]
      case Untyped(b) => (Some(DecodePeVector(b)), m[a := PeVector(DecodePeVector(b))])
      case PeVector(d) => (Some(d), m)
      case _ => (None, m)
  }

  function WriteV(m: Mem, a: u32, d: Vec8): (bool, Mem) {
    if a !in m || m[a].Untyped? || m[a].PeVector? then (true, m[a := PeVector(d)]) else (false, m)
  }

  function ReadS(m: Mem, a: u32): (Option<i32>, Mem) {
    if a !in m then (Some(0), m)
    else match m[a]
      case Untyped(b) => (Some(DecodePeScalar(b)), m[a := PeScalar(DecodePeScalar(b))])
      case PeScalar(d) => (Some(d), m)
      case _ => (None, m)
  }

  function WriteS(m: Mem, a: u32, d: i32): (bool, Mem) {
    if a !in m || m[a].Untyped? || m[a].PeScalar? then (true, m[a := PeScalar(d)]) else (false, m)
  }

  // ---- host cache lines ----

  function LeBytes(x: nat, n: nat): (b: seq<u8>)
    ensures |b| == n
  {
    if n == 0 then [] else [x % 0x100] + LeBytes(x / 0x100, n - 1)
  }

  /** The 16 bytes of the i-th entry of a cache line, given as eight 64-bit words. */
  function LineBytes(payload: Payload, i: nat): Bytes16
    requires i < ENTRIES_PER_CACHELINE
  {
    LeBytes(payload[2 * i], 8) + LeBytes(payload[2 * i + 1], 8)
  }

  function Mirror(m: Mem, a: u32, bytes: Bytes16): Mem {
    m[a := if a in m then MirrorEntry(m[a], bytes) else Untyped(bytes)]
  }

  /** The first `n` entries of the line at `first` stored from the host side. */
  function MirrorEntries(m: Mem, first: u32, payload: Payload, n: nat): Mem
    requires n <= ENTRIES_PER_CACHELINE && first + ENTRIES_PER_CACHELINE <= 0x1_0000_0000
  {
    if n == 0 then m
    else Mirror(MirrorEntries(m, first, payload, n - 1), first + (n - 1), LineBytes(payload, n - 1))
  }

  function MirrorLine(m: Mem, first: u32, payload: Payload): Mem
    requires first + ENTRIES_PER_CACHELINE <= 0x1_0000_0000
  {
    MirrorEntries(m, first, payload, ENTRIES_PER_CACHELINE)
  }

  class FlatMem {
    var mem: Mem

    constructor ()
      ensures mem == map[]
    {
      mem := map[];
    }

    method MirrorHostWrite(first: u32, payload: Payload)
      requires first + ENTRIES_PER_CACHELINE <= 0x1_0000_0000
      modifies this
      ensures mem == MirrorLine(old(mem), first, payload)
    {
      for i := 0 to ENTRIES_PER_CACHELINE
        invariant mem == MirrorEntries(old(mem), first, payload, i)
      {
        var addr := first + i;
        if addr in mem {
          mem := mem[addr := MirrorEntry(mem[addr], LineBytes(payload, i))];
        } else {
          mem := mem[addr := Untyped(LineBytes(payload, i))];
        }
      }
    }

    method MemReadData(a: u32) returns (d: Option<Vec4>)
      modifies this
      ensures (d, mem) == ReadData(old(mem), a)
    {
      if a !in mem {
        return Some(ZERO4);
      }
      match mem[a] {
        case Untyped(b) =>
          d := Some(DecodeCpuData(b));
          mem := mem[a := CpuData(DecodeCpuData(b))];
        case CpuData(x) => d := Some(x);
        case _ => d := None;
      }
    }

    method MemWriteData(a: u32, d: Vec4) returns (ok: bool)
      modifies this
      ensures (ok, mem) == WriteData(old(mem), a, d)
    {
      ok := a !in mem || mem[a].Untyped? || mem[a].CpuData?;
      if ok {
        mem := mem[a := CpuData(d)];
      }
    }

    method MemReadFptr(a: u32) returns (p: Option<FatPtr>)
      modifies this
      ensures (p, mem) == ReadFptr(old(mem), a)
    {
      if a !in mem {
        return None;
      }
      match mem[a] {
        case Untyped(b) =>
          p := Some(DecodeCpuFatPtr(b));
          mem := mem[a := CpuFatPtr(DecodeCpuFatPtr(b))];
        case CpuFatPtr(x) => p := Some(x);
        case _ => p := None;
      }
    }

    method MemWriteFptr(a: u32, p: FatPtr) returns (ok: bool)
      modifies this
      ensures (ok, mem) == WriteFptr(old(mem), a, p)
    {
      ok := a !in mem || mem[a].Untyped? || mem[a].CpuFatPtr?;
      if ok {
        mem := mem[a := CpuFatPtr(p)];
      }
    }

    method MemReadV(a: u32) returns (d: Option<Vec8>)
      modifies this
      ensures (d, mem) == ReadV(old(mem), a)
    {
      if a !in mem {
        return Some([0, 0, 0, 0, 0, 0, 0, 0]);
      }
      match mem[a] {
        case Untyped(b) =>
          d := Some(DecodePeVector(b));
          mem := mem[a := PeVector(DecodePeVector(b))];
        case PeVector(x) => d := Some(x);
        case _ => d := None;
      }
    }

    method MemWriteV(a: u32, d: Vec8) returns (ok: bool)
      modifies this
      ensures (ok, mem) == WriteV(old(mem), a, d)
    {
      ok := a !in mem || mem[a].Untyped? || mem[a].PeVector?;
      if ok {
        mem := mem[a := PeVector(d)];
      }
    }

    method MemReadS(a: u32) returns (d: Option<i32>)
      modifies this
      ensures (d, mem) == ReadS(old(mem), a)
    {
      if a !in mem {
        return Some(0);
      }
      match mem[a] {
        case Untyped(b) =>
          d := Some(DecodePeScalar(b));
          mem := mem[a := PeScalar(DecodePeScalar(b))];
        case PeScalar(x) => d := Some(x);
        case _ => d := None;
      }
    }

    method MemWriteS(a: u32, d: i32) returns (ok: bool)
      modifies this
      ensures (ok, mem) == WriteS(old(mem), a, d)
    {
      ok := a !in mem || mem[a].Untyped? || mem[a].PeScalar?;
      if ok {
        mem := mem[a := PeScalar(d)];
      }
    }
  }
}
